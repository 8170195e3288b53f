/** The simulation of src/ts/twofbosimulation.ts: a "read" and a "write"
    framebuffer held in one flipper, and the three hooks the gl-now shell
    fires (gl-init, tick, gl-render). The hook bodies are first given as
    functions from the simulation's state to an `Outcome` (its next state,
    the GL side effects it issued, and the error it threw, if any); the
    class below is proved to behave exactly as those functions say. */
module Simulation {
  import opened JsValues
  import opened Flipping
  import opened StackGl

  /** What a hook can throw. */
  datatype Error =
    | SimulationShaderUnset            // thrown by the tick guard
    | RenderShaderUnset                // thrown by the render guard
    | TypeError(member: string)        // `undefined.member` at run time
    | ShaderCompileFailed(source: string)  // thrown by gl-shader

  /** A JavaScript call either returns a value or throws. */
  datatype Completion<T> = Normal(value: T) | Throw(error: Error)

  /** The simulation's mutable fields: the framebuffer flipper (absent until
      gl-init has run) and the two shaders. */
  datatype State = State(buffers: Option<Sides<Framebuffer>>,
                         simulationShader: JsValue<Shader>,
                         renderShader: JsValue<Shader>)

  /** The effect of running one hook body. */
  datatype Outcome = Outcome(state: State, events: seq<Event>, error: Option<Error>)

  /** The effect of the gl-init hook, with the context's next unused name. */
  datatype InitResult = InitResult(outcome: Outcome, nextName: nat)

  /** A frame hook the shell may fire once gl-init has run. */
  datatype FrameHook = TickHook | RenderHook

  /** The state right after the constructor: no field has been assigned. */
  const Unstarted: State := State(None, Undefined, Undefined)

  /** What holds of every state the hooks can reach: the two framebuffers are
      distinct and of one shape, and the fields are assigned in the order
      gl-init assigns them. */
  predicate Invariant(s: State) {
    (s.buffers.Some? ==>
      s.buffers.value.front != s.buffers.value.back &&
      s.buffers.value.front.shape == s.buffers.value.back.shape) &&
    (s.simulationShader.Defined? ==> s.buffers.Some?) &&
    (s.renderShader.Defined? ==> s.simulationShader.Defined?)
  }

  /** The framebuffers an event sequence binds as the draw target. */
  function WriteTargets(events: seq<Event>): set<Framebuffer> {
    set e | e in events && e.WriteTargetBound? :: e.fb
  }

  /** The framebuffers whose colour texture an event sequence samples. */
  function Sampled(events: seq<Event>): set<Framebuffer> {
    set e | e in events && e.SamplerBound? :: e.fb
  }

  /** How many times an event sequence flips the framebuffers. */
  function Flips(events: seq<Event>): nat {
    multiset(events)[BuffersFlipped]
  }

  /** How many ticks a sequence of frame hooks holds. */
  function Ticks(hooks: seq<FrameHook>): nat {
    multiset(hooks)[TickHook]
  }

  /** `getNextReadFBO()`: the flipper's front. */
  function NextRead(s: State): (r: Completion<Framebuffer>)
    ensures r.Normal? <==> s.buffers.Some?
    ensures r.Normal? ==> r.value == s.buffers.value.front
    ensures r.Throw? ==> r.error == TypeError("peekFront")
  {
    if s.buffers.None? then Throw(TypeError("peekFront")) else Normal(s.buffers.value.front)
  }

  /** `getNextWriteFBO()`: the flipper's back. */
  function NextWrite(s: State): (r: Completion<Framebuffer>)
    ensures r.Normal? <==> s.buffers.Some?
    ensures r.Normal? ==> r.value == s.buffers.value.back
    ensures r.Throw? ==> r.error == TypeError("peekBack")
  {
    if s.buffers.None? then Throw(TypeError("peekBack")) else Normal(s.buffers.value.back)
  }

  /** `makeFrameBufferFlipper(gl)`: two new framebuffers, each of the
      drawing buffer's shape; the first made is the front. */
  function NewBuffers(gl: GlView): (r: Sides<Framebuffer>)
    ensures r.front != r.back
    ensures r.front.shape == Shape(gl.drawingBufferWidth, gl.drawingBufferHeight)
    ensures r.back.shape == r.front.shape
    ensures gl.nextName <= r.front.name && gl.nextName <= r.back.name
  {
    var shape := Shape(gl.drawingBufferWidth, gl.drawingBufferHeight);
    Sides(Framebuffer(gl.nextName, shape), Framebuffer(gl.nextName + 1, shape))
  }

  /** The gl-init hook body: make the flipper, then the simulation shader,
      then the render shader, upload the triangles and run the callback if
      there is one. A shader that fails to compile throws, leaving what was
      assigned before it in place. */
  function Init(s: State, gl: GlView, simulationSource: string, renderSource: string,
                hasCallback: bool): (r: InitResult)
    ensures r.outcome.state.buffers == Some(NewBuffers(gl))
    ensures r.outcome.error == Some(ShaderCompileFailed(simulationSource)) <==>
      simulationSource in gl.rejected
    ensures simulationSource in gl.rejected ==>
      r.outcome.state.simulationShader == s.simulationShader &&
      r.outcome.state.renderShader == s.renderShader
    ensures simulationSource !in gl.rejected && renderSource in gl.rejected ==>
      r.outcome.error == Some(ShaderCompileFailed(renderSource)) &&
      r.outcome.state.simulationShader.Defined? &&
      r.outcome.state.simulationShader.value.fragmentSource == simulationSource &&
      r.outcome.state.renderShader == s.renderShader
    ensures r.outcome.error.None? <==>
      simulationSource !in gl.rejected && renderSource !in gl.rejected
    ensures r.outcome.error.None? ==>
      var st := r.outcome.state;
      st.simulationShader.Defined? && st.simulationShader.value.fragmentSource == simulationSource &&
      st.renderShader.Defined? && st.renderShader.value.fragmentSource == renderSource &&
      st.simulationShader != st.renderShader
    ensures Invariant(s) ==> Invariant(r.outcome.state)
    ensures gl.nextName + 2 <= r.nextName
  {
    var buffers := NewBuffers(gl);
    var created := [FramebufferCreated(buffers.front), FramebufferCreated(buffers.back)];
    var s1 := s.(buffers := Some(buffers));
    if simulationSource in gl.rejected then
      InitResult(Outcome(s1, created, Some(ShaderCompileFailed(simulationSource))), gl.nextName + 2)
    else
      var simulation := Shader(gl.nextName + 2, simulationSource);
      var s2 := s1.(simulationShader := Defined(simulation));
      if renderSource in gl.rejected then
        var made := [FramebufferCreated(buffers.front), FramebufferCreated(buffers.back),
                     ShaderCreated(simulation)];
        InitResult(Outcome(s2, made, Some(ShaderCompileFailed(renderSource))), gl.nextName + 3)
      else
        var render := Shader(gl.nextName + 3, renderSource);
        var uploaded := [FramebufferCreated(buffers.front), FramebufferCreated(buffers.back),
                         ShaderCreated(simulation), ShaderCreated(render),
                         ArrayBufferBound, TrianglesUploaded];
        var events := if hasCallback then uploaded + [CallbackInvoked] else uploaded;
        InitResult(Outcome(s2.(renderShader := Defined(render)), events, None), gl.nextName + 4)
  }

  /** gl-init runs its callback exactly when it was given one and both
      shaders compiled. */
  lemma InitCallsBackOnlyIfGiven(s: State, gl: GlView, simulationSource: string,
                                 renderSource: string, hasCallback: bool)
    ensures var o := Init(s, gl, simulationSource, renderSource, hasCallback).outcome;
      CallbackInvoked in o.events <==> hasCallback && o.error.None?
  {
  }

  /** gl-init draws into no framebuffer and flips nothing. */
  lemma InitDrawsNothing(s: State, gl: GlView, simulationSource: string,
                         renderSource: string, hasCallback: bool)
    ensures var o := Init(s, gl, simulationSource, renderSource, hasCallback).outcome;
      WriteTargets(o.events) == {} && Flips(o.events) == 0
  {
    var events := Init(s, gl, simulationSource, renderSource, hasCallback).outcome.events;
    if simulationSource in gl.rejected {
      assert |events| == 2;
    } else if renderSource in gl.rejected {
      assert |events| == 3;
    } else if hasCallback {
      assert |events| == 7;
    } else {
      assert |events| == 6;
    }
    QuietTrace(events);
  }

  /** A trace without a write-target binding or a flip has empty
      `WriteTargets` and no `Flips`. */
  lemma QuietTrace(events: seq<Event>)
    requires forall i | 0 <= i < |events| :: !events[i].WriteTargetBound? && events[i] != BuffersFlipped
    ensures WriteTargets(events) == {} && Flips(events) == 0
  {
    assert BuffersFlipped !in multiset(events);
  }

  /** What a tick that gets past its guard issues, in order: bind `next` as
      the write target, bind the shader, sample `last` and pass its shape as
      the resolution, draw the two triangles, and flip last of all. */
  function TickEvents(last: Framebuffer, next: Framebuffer, shader: Shader): seq<Event> {
    [WriteTargetBound(next), ShaderBound(shader),
     SamplerBound("simulation_texture", last),
     ShapeUniformSet("resolution", last.shape),
     AttributePointed("a_position"), TrianglesDrawn(0, 6), BuffersFlipped]
  }

  /** What a render that gets past its checks issues, in order: bind the
      shader, sample `last` and pass its shape as the resolution, draw. */
  function RenderEvents(last: Framebuffer, shader: Shader): seq<Event> {
    [ShaderBound(shader), SamplerBound("uSampler", last),
     ShapeUniformSet("resolution", last.shape),
     AttributePointed("a_position"), TrianglesDrawn(0, 6)]
  }

  /** The tick hook body. It throws before doing anything when the
      simulation shader is `null` or `undefined`; otherwise it draws into the
      back buffer while sampling the front one, and then flips once. */
  function Tick(s: State): (o: Outcome)
    ensures o.error == Some(SimulationShaderUnset) <==> s.simulationShader.LooselyNull()
    ensures o.error == Some(TypeError("peekFront")) <==>
      s.simulationShader.Defined? && s.buffers.None?
    ensures o.error.None? <==> s.simulationShader.Defined? && s.buffers.Some?
    ensures o.error.Some? ==> o.state == s && o.events == []
    ensures o.error.None? ==>
      o.state.simulationShader == s.simulationShader &&
      o.state.renderShader == s.renderShader
    ensures Invariant(s) ==> Invariant(o.state)
  {
    if s.simulationShader.LooselyNull() then
      Outcome(s, [], Some(SimulationShaderUnset))
    else if s.buffers.None? then
      Outcome(s, [], Some(TypeError("peekFront")))
    else
      var events := TickEvents(s.buffers.value.front, s.buffers.value.back,
                               s.simulationShader.value);
      Outcome(State(Some(Flipped(s.buffers.value)), s.simulationShader, s.renderShader),
              events, None)
  }

  /** The events of a completed tick draw only into `next`, sample only
      `last`, pass `last`'s shape as the resolution, and flip exactly once,
      after the draw call. */
  lemma TickEventsTrace(last: Framebuffer, next: Framebuffer, shader: Shader)
    ensures var events := TickEvents(last, next, shader);
      WriteTargets(events) == {next} && Sampled(events) == {last} &&
      ShapeUniformSet("resolution", last.shape) in events &&
      ShaderBound(shader) in events &&
      Flips(events) == 1 && events[|events| - 1] == BuffersFlipped &&
      TrianglesDrawn(0, 6) in events[..|events| - 1]
  {
    var events := TickEvents(last, next, shader);
    assert events[0] in events && events[2] in events;
    assert events[..|events| - 1][5] == TrianglesDrawn(0, 6);
  }

  /** A tick that gets past its guard draws only into the back buffer,
      samples only the front buffer, passes the front buffer's shape as the
      resolution, and flips exactly once, after its draw call. */
  lemma TickTrace(s: State)
    requires Tick(s).error.None?
    ensures var o, b := Tick(s), s.buffers.value;
      WriteTargets(o.events) == {b.back} && Sampled(o.events) == {b.front} &&
      ShapeUniformSet("resolution", b.front.shape) in o.events &&
      ShaderBound(s.simulationShader.value) in o.events &&
      Flips(o.events) == 1 && o.events[|o.events| - 1] == BuffersFlipped &&
      TrianglesDrawn(0, 6) in o.events[..|o.events| - 1]
  {
    TickEventsTrace(s.buffers.value.front, s.buffers.value.back, s.simulationShader.value);
  }

  /** In a state the hooks can reach, a tick never samples the framebuffer
      it draws into. */
  lemma TickIsolatesReadFromWrite(s: State)
    requires Invariant(s) && Tick(s).error.None?
    ensures WriteTargets(Tick(s).events) !! Sampled(Tick(s).events)
  {
    TickTrace(s);
  }

  /** The buffer a tick writes is the next one read, and the buffer it read
      is the next one written. */
  lemma TickSwapsReadAndWrite(s: State)
    requires Tick(s).error.None?
    ensures NextRead(Tick(s).state) == Normal(NextWrite(s).value)
    ensures NextWrite(Tick(s).state) == Normal(NextRead(s).value)
  {
  }

  /** The render hook body, guard as written: it throws its own error only
      when the render shader is exactly `null`. It never changes the state. */
  function Render(s: State): (o: Outcome)
    ensures o.state == s
    ensures o.error == Some(RenderShaderUnset) <==> s.renderShader.Null?
    ensures o.error.None? <==> s.renderShader.Defined? && s.buffers.Some?
    ensures s.renderShader.Undefined? ==> o.error.Some? && o.error.value.TypeError?
    ensures o.error.Some? ==> o.events == []
  {
    if s.renderShader.Null? then
      Outcome(s, [], Some(RenderShaderUnset))
    else if s.buffers.None? then
      Outcome(s, [], Some(TypeError("peekFront")))
    else if s.renderShader.Undefined? then
      Outcome(s, [], Some(TypeError("bind")))
    else
      Outcome(s, RenderEvents(s.buffers.value.front, s.renderShader.value), None)
  }

  /** The events of a completed render sample only `last`, pass its shape
      as the resolution, bind no write target and do not flip. */
  lemma RenderEventsTrace(last: Framebuffer, shader: Shader)
    ensures var events := RenderEvents(last, shader);
      WriteTargets(events) == {} && Flips(events) == 0 && Sampled(events) == {last} &&
      ShapeUniformSet("resolution", last.shape) in events &&
      ShaderBound(shader) in events && TrianglesDrawn(0, 6) in events
  {
    var events := RenderEvents(last, shader);
    assert events[1] in events;
    assert BuffersFlipped !in multiset(events);
  }

  /** A render binds no write target and never flips; when it completes it
      samples only the front buffer and passes that buffer's shape as the
      resolution. */
  lemma RenderTrace(s: State)
    ensures var o := Render(s);
      WriteTargets(o.events) == {} && Flips(o.events) == 0 &&
      (o.error.None? ==>
        Sampled(o.events) == {s.buffers.value.front} &&
        ShapeUniformSet("resolution", s.buffers.value.front.shape) in o.events &&
        ShaderBound(s.renderShader.value) in o.events &&
        TrianglesDrawn(0, 6) in o.events)
  {
    if Render(s).error.None? {
      RenderEventsTrace(s.buffers.value.front, s.renderShader.value);
    }
  }

  /** The render hook with the loose guard `== null` that its error message
      calls for: it throws its own error whenever the shader is unset. */
  function IntendedRender(s: State): (o: Outcome)
    ensures o.error == Some(RenderShaderUnset) <==> s.renderShader.LooselyNull()
    ensures o.error.None? <==> s.renderShader.Defined? && s.buffers.Some?
    ensures o.state == s
    ensures s.renderShader.Defined? ==> o == Render(s)
  {
    if s.renderShader.LooselyNull() then Outcome(s, [], Some(RenderShaderUnset)) else Render(s)
  }

  /** A render fired while the render shader is still unset gets past the
      strict `=== null` guard and fails with a TypeError instead. */
  lemma RenderGuardMissesUnsetShader()
    ensures Render(Unstarted).error == Some(TypeError("peekFront"))
    ensures IntendedRender(Unstarted).error == Some(RenderShaderUnset)
  {
  }

  /** Neither shader field holds `null`: no hook body ever assigns it. */
  predicate NeverNull(s: State) {
    !s.simulationShader.Null? && !s.renderShader.Null?
  }

  /** gl-init assigns shaders that gl-shader returned, never `null`. */
  lemma InitAssignsNoNull(s: State, gl: GlView, simulationSource: string,
                          renderSource: string, hasCallback: bool)
    requires NeverNull(s)
    ensures NeverNull(Init(s, gl, simulationSource, renderSource, hasCallback).outcome.state)
  {
  }

  /** However the frame hooks run, no shader field becomes `null`. */
  lemma {:induction false} RunKeepsShadersNonNull(s: State, hooks: seq<FrameHook>)
    requires NeverNull(s)
    ensures NeverNull(Run(s, hooks).state)
    decreases |hooks|
  {
    if hooks != [] && Fire(s, hooks[0]).error.None? {
      RunKeepsShadersNonNull(Fire(s, hooks[0]).state, hooks[1..]);
    }
  }

  /** The strict render guard never fires: whether gl-init has run or not,
      and whatever frame hooks ran before, a render never throws
      `RenderShaderUnset`. */
  lemma RenderGuardNeverFires(gl: GlView, simulationSource: string, renderSource: string,
                              hasCallback: bool, hooks: seq<FrameHook>)
    ensures Render(Run(Unstarted, hooks).state).error != Some(RenderShaderUnset)
    ensures var s := Init(Unstarted, gl, simulationSource, renderSource, hasCallback).outcome.state;
      Render(Run(s, hooks).state).error != Some(RenderShaderUnset)
  {
    RunKeepsShadersNonNull(Unstarted, hooks);
    InitAssignsNoNull(Unstarted, gl, simulationSource, renderSource, hasCallback);
    RunKeepsShadersNonNull(Init(Unstarted, gl, simulationSource, renderSource, hasCallback).outcome.state, hooks);
  }

  /** Run one frame hook. */
  function Fire(s: State, hook: FrameHook): Outcome {
    match hook
    case TickHook => Tick(s)
    case RenderHook => Render(s)
  }

  /** Run frame hooks in the order the shell fires them, stopping at the
      first one that throws. */
  function Run(s: State, hooks: seq<FrameHook>): (o: Outcome)
    ensures Invariant(s) ==> Invariant(o.state)
    decreases |hooks|
  {
    if hooks == [] then Outcome(s, [], None)
    else
      var first := Fire(s, hooks[0]);
      if first.error.Some? then first
      else
        var rest := Run(first.state, hooks[1..]);
        Outcome(rest.state, first.events + rest.events, rest.error)
  }

  /** One frame hook that completes flips once if it is a tick and not at
      all if it is a render, and leaves the shaders alone. */
  lemma FireFlipsOncePerTick(s: State, hook: FrameHook)
    requires s.buffers.Some? && Fire(s, hook).error.None?
    ensures var o := Fire(s, hook);
      Flips(o.events) == (if hook == TickHook then 1 else 0) &&
      o.state == State(Some(if hook == TickHook then Flipped(s.buffers.value) else s.buffers.value),
                       s.simulationShader, s.renderShader)
  {
    match hook
    case TickHook => TickTrace(s);
    case RenderHook => RenderTrace(s);
  }

  /** A run that gets past its first hook is that hook followed by the run
      of the rest. */
  lemma RunStep(s: State, hooks: seq<FrameHook>)
    requires hooks != [] && Fire(s, hooks[0]).error.None?
    ensures var first := Fire(s, hooks[0]);
      var rest := Run(first.state, hooks[1..]);
      Run(s, hooks) == Outcome(rest.state, first.events + rest.events, rest.error) &&
      Ticks(hooks) == (if hooks[0] == TickHook then 1 else 0) + Ticks(hooks[1..])
  {
    assert hooks == [hooks[0]] + hooks[1..];
  }

  /** Flips add up over concatenated traces. */
  lemma FlipsAppend(a: seq<Event>, b: seq<Event>)
    ensures Flips(a + b) == Flips(a) + Flips(b)
  {
    assert multiset(a + b) == multiset(a) + multiset(b);
  }

  /** Over any run of frame hooks that completes, the framebuffers are where
      one flip per tick puts them, and the shaders are untouched. */
  lemma {:induction false} RunFlipsBuffersPerTick(s: State, hooks: seq<FrameHook>)
    requires s.buffers.Some?
    ensures var o := Run(s, hooks);
      o.error.None? ==>
        o.state == State(Some(FlippedTimes(s.buffers.value, Ticks(hooks))),
                         s.simulationShader, s.renderShader)
    decreases |hooks|
  {
    if hooks != [] && Fire(s, hooks[0]).error.None? {
      FireFlipsOncePerTick(s, hooks[0]);
      RunStep(s, hooks);
      RunFlipsBuffersPerTick(Fire(s, hooks[0]).state, hooks[1..]);
    }
  }

  /** Over any run of frame hooks that completes, the trace holds exactly one
      flip per tick: none per render. */
  lemma {:induction false} RunFlipsOncePerTick(s: State, hooks: seq<FrameHook>)
    requires s.buffers.Some?
    ensures Run(s, hooks).error.None? ==> Flips(Run(s, hooks).events) == Ticks(hooks)
    decreases |hooks|
  {
    if hooks != [] && Fire(s, hooks[0]).error.None? {
      var first := Fire(s, hooks[0]);
      FireFlipsOncePerTick(s, hooks[0]);
      RunStep(s, hooks);
      RunFlipsOncePerTick(first.state, hooks[1..]);
      FlipsAppend(first.events, Run(first.state, hooks[1..]).events);
    }
  }

  /** After a completed run from buffers (a, b), the next buffer to read is
      a after an even number of ticks and b after an odd number. */
  lemma RunAlternatesReadBuffer(s: State, hooks: seq<FrameHook>)
    requires s.buffers.Some?
    ensures var o := Run(s, hooks);
      o.error.None? ==>
        NextRead(o.state) == Normal(if Ticks(hooks) % 2 == 0
                                    then s.buffers.value.front else s.buffers.value.back) &&
        NextWrite(o.state) == Normal(if Ticks(hooks) % 2 == 0
                                     then s.buffers.value.back else s.buffers.value.front)
  {
    RunFlipsBuffersPerTick(s, hooks);
    FlippedTimesParity(s.buffers.value, Ticks(hooks));
  }

  /** What a hook registered on the shell runs. */
  datatype Handler = InitHandler(hasCallback: bool) | TickHandler | RenderHandler

  datatype Listener = Listener(event: string, handler: Handler)

  /** The gl-now shell: its context and the listeners registered on it.
      Dispatching events to the listeners is the shell's business. */
  class Shell {
    const gl: GlContext
    var listeners: seq<Listener>

    constructor (gl: GlContext)
      ensures this.gl == gl && listeners == []
    {
      this.gl := gl;
      listeners := [];
    }

    /** `shell.on(event, handler)`. */
    method On(event: string, handler: Handler)
      modifies this
      ensures listeners == old(listeners) + [Listener(event, handler)]
    {
      listeners := listeners + [Listener(event, handler)];
    }
  }

  class TwoFBOSimulation {
    const glShell: Shell
    const renderShaderSource: string
    const simulationShaderSource: string
    var renderShader: JsValue<Shader>
    var simulationShader: JsValue<Shader>
    var frameBuffers: Flipper?<Framebuffer>

    /** The objects the simulation's state lives in. */
    ghost function Repr(): set<object>
      reads this
    {
      if frameBuffers == null then {this} else {this, frameBuffers, frameBuffers.sides}
    }

    /** The flipper's array, the one thing a tick changes in place. */
    ghost function Buffers(): set<object>
      reads this
    {
      if frameBuffers == null then {} else {frameBuffers.sides}
    }

    ghost function Snapshot(): State
      reads this, Repr()
      requires frameBuffers != null ==> frameBuffers.Valid()
    {
      State(if frameBuffers == null then None else Some(frameBuffers.Model()),
            simulationShader, renderShader)
    }

    ghost predicate Valid()
      reads this, Repr()
    {
      (frameBuffers != null ==> frameBuffers.Valid()) && Invariant(Snapshot())
    }

    constructor (glShell: Shell, renderShaderSource: string, simulationShaderSource: string)
      ensures this.glShell == glShell
      ensures this.renderShaderSource == renderShaderSource
      ensures this.simulationShaderSource == simulationShaderSource
      ensures Valid() && Snapshot() == Unstarted
    {
      this.glShell := glShell;
      this.renderShaderSource := renderShaderSource;
      this.simulationShaderSource := simulationShaderSource;
      renderShader, simulationShader, frameBuffers := Undefined, Undefined, null;
    }

    /** The framebuffer that will be read from next. */
    method GetNextReadFBO() returns (r: Completion<Framebuffer>)
      requires Valid()
      ensures r == NextRead(Snapshot())
    {
      if frameBuffers == null {
        r := Throw(TypeError("peekFront"));
      } else {
        var fb := frameBuffers.PeekFront();
        r := Normal(fb);
      }
    }

    /** The framebuffer that will be written to next. */
    method GetNextWriteFBO() returns (r: Completion<Framebuffer>)
      requires Valid()
      ensures r == NextWrite(Snapshot())
    {
      if frameBuffers == null {
        r := Throw(TypeError("peekBack"));
      } else {
        var fb := frameBuffers.PeekBack();
        r := Normal(fb);
      }
    }

    /** Register the gl-init, tick and gl-render hooks, in that order; the
        init hook is given a callback (the promise's `resolve`). */
    method Start()
      modifies glShell
      ensures glShell.listeners == old(glShell.listeners) +
        [Listener("gl-init", InitHandler(true)), Listener("tick", TickHandler),
         Listener("gl-render", RenderHandler)]
    {
      SetupInitHook(true);
      SetupTickHook();
      SetupRenderHook();
    }

    method SetupInitHook(hasCallback: bool)
      modifies glShell
      ensures glShell.listeners == old(glShell.listeners) + [Listener("gl-init", InitHandler(hasCallback))]
    {
      glShell.On("gl-init", InitHandler(hasCallback));
    }

    method SetupTickHook()
      modifies glShell
      ensures glShell.listeners == old(glShell.listeners) + [Listener("tick", TickHandler)]
    {
      glShell.On("tick", TickHandler);
    }

    method SetupRenderHook()
      modifies glShell
      ensures glShell.listeners == old(glShell.listeners) + [Listener("gl-render", RenderHandler)]
    {
      glShell.On("gl-render", RenderHandler);
    }

    /** Two new framebuffers of the drawing buffer's shape in a new flipper. */
    static method MakeFrameBufferFlipper(gl: GlContext) returns (f: Flipper<Framebuffer>)
      modifies gl
      ensures fresh(f) && fresh(f.sides) && f.Valid()
      ensures f.Model() == NewBuffers(old(gl.View()))
      ensures gl.nextName == old(gl.nextName) + 2
      ensures gl.log == old(gl.log) +
        [FramebufferCreated(f.Model().front), FramebufferCreated(f.Model().back)]
    {
      var shape := Shape(gl.drawingBufferWidth, gl.drawingBufferHeight);
      var front := gl.CreateFramebuffer(shape);
      var back := gl.CreateFramebuffer(shape);
      f := new Flipper(front, back);
    }

    /** The body of the gl-init hook. */
    method OnGlInit(hasCallback: bool) returns (error: Option<Error>)
      requires Valid()
      modifies this, glShell.gl
      ensures Valid() && fresh(Repr() - old(Repr()))
      ensures var r := Init(old(Snapshot()), old(glShell.gl.View()),
                            simulationShaderSource, renderShaderSource, hasCallback);
        Snapshot() == r.outcome.state && error == r.outcome.error &&
        glShell.gl.log == old(glShell.gl.log) + r.outcome.events &&
        glShell.gl.nextName == r.nextName
    {
      var gl := glShell.gl;
      ghost var log0, buffers := gl.log, NewBuffers(gl.View());
      frameBuffers := MakeFrameBufferFlipper(gl);
      ghost var created := [FramebufferCreated(buffers.front), FramebufferCreated(buffers.back)];
      assert gl.log == log0 + created;
      // setupShader(simulationShaderSource)
      var simulation := gl.CreateShader(simulationShaderSource);
      if simulation.None? {
        return Some(ShaderCompileFailed(simulationShaderSource));
      }
      simulationShader := Defined(simulation.value);
      // setupShader(renderShaderSource)
      var render := gl.CreateShader(renderShaderSource);
      if render.None? {
        assert gl.log == log0 + [FramebufferCreated(buffers.front), FramebufferCreated(buffers.back),
                                 ShaderCreated(simulation.value)];
        return Some(ShaderCompileFailed(renderShaderSource));
      }
      renderShader := Defined(render.value);
      gl.Emit(ArrayBufferBound);
      gl.Emit(TrianglesUploaded);
      ghost var uploaded := [FramebufferCreated(buffers.front), FramebufferCreated(buffers.back),
                             ShaderCreated(simulation.value), ShaderCreated(render.value),
                             ArrayBufferBound, TrianglesUploaded];
      assert gl.log == log0 + uploaded;
      if hasCallback {
        gl.Emit(CallbackInvoked);
      }
      error := None;
    }

    /** The body of the tick hook. */
    method OnTick() returns (error: Option<Error>)
      requires Valid()
      modifies glShell.gl`log, Buffers()
      ensures Valid() && frameBuffers == old(frameBuffers)
      ensures var o := Tick(old(Snapshot()));
        Snapshot() == o.state && error == o.error &&
        glShell.gl.log == old(glShell.gl.log) + o.events
    {
      var gl := glShell.gl;
      if simulationShader.LooselyNull() {
        return Some(SimulationShaderUnset);
      }
      ghost var before, log0 := Snapshot(), gl.log;
      var shader := simulationShader.value;
      var lastBuffer := frameBuffers.PeekFront();
      var nextBuffer := frameBuffers.PeekBack();
      gl.Emit(WriteTargetBound(nextBuffer));
      gl.Emit(ShaderBound(shader));
      gl.Emit(SamplerBound("simulation_texture", lastBuffer));
      gl.Emit(ShapeUniformSet("resolution", lastBuffer.shape));
      gl.Emit(AttributePointed("a_position"));
      gl.Emit(TrianglesDrawn(0, 6));
      var previousFront := frameBuffers.Flip();
      gl.Emit(BuffersFlipped);
      assert gl.log == log0 + [WriteTargetBound(nextBuffer), ShaderBound(shader),
                               SamplerBound("simulation_texture", lastBuffer),
                               ShapeUniformSet("resolution", lastBuffer.shape),
                               AttributePointed("a_position"), TrianglesDrawn(0, 6),
                               BuffersFlipped];
      error := None;
    }

    /** The body of the gl-render hook. */
    method OnRender() returns (error: Option<Error>)
      requires Valid()
      modifies glShell.gl`log
      ensures Valid() && Snapshot() == old(Snapshot())
      ensures var o := Render(old(Snapshot()));
        error == o.error && glShell.gl.log == old(glShell.gl.log) + o.events
    {
      var gl := glShell.gl;
      if renderShader.Null? {
        return Some(RenderShaderUnset);
      }
      if frameBuffers == null {
        return Some(TypeError("peekFront"));
      }
      var lastBuffer := frameBuffers.PeekFront();
      if renderShader.Undefined? {
        return Some(TypeError("bind"));
      }
      gl.Emit(ShaderBound(renderShader.value));
      gl.Emit(SamplerBound("uSampler", lastBuffer));
      gl.Emit(ShapeUniformSet("resolution", lastBuffer.shape));
      gl.Emit(AttributePointed("a_position"));
      gl.Emit(TrianglesDrawn(0, 6));
      error := None;
    }
  }
}
