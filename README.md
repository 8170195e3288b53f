# slime-mold: the ping-pong framebuffer simulation

This project models the double-buffering core of slime-mold, a WebGL
simulation written in TypeScript.

- A `Flipper<T>` holds two values. The front is the read side and the back is
  the write side. `flip` exchanges them and returns the old front.
- A `TwoFBOSimulation` owns one `Flipper<Framebuffer>` and two shaders. It
  registers three hooks on a gl-now shell:
  - **gl-init** creates the two framebuffers, compiles both shaders, uploads
    two triangles and calls the start callback.
  - **tick** samples the front framebuffer, draws into the back one with the
    simulation shader, and flips.
  - **gl-render** samples the front framebuffer with the render shader and
    does not flip.

Both source files work by changing objects in place, so each becomes a Dafny
class:

- `Flipping.Flipper` keeps the two values in a two-element array.
  `Flip` swaps the array's slots in place.
- `Simulation.TwoFBOSimulation` has the source's fields:
  - `frameBuffers`, which is `null` until gl-init runs;
  - `simulationShader` and `renderShader`, each a `JsValue`, which
    distinguishes `undefined`, `null` and a defined value.

Every method is proved against a specification function over plain values:

- `Flipped` for `Flip`;
- `NextRead` and `NextWrite` for the two accessors;
- `Init`, `Tick` and `Render` for the three hook bodies.

The properties of the source are then proved as lemmas about those
functions. `Run` chains tick and render hooks in the order the shell fires
them, so the multi-frame properties are stated over `Run`: one flip per tick,
and read and write roles that alternate with the parity of the tick count.

WebGL stays opaque. `StackGl.GlContext` hands out fresh integer names for
framebuffers and shader programs. It also appends one `Event` to its `log`
for each side effect a hook body issues, such as binding a write target,
binding a sampler, setting the `resolution` uniform, drawing or flipping.
Properties about what a hook reads and writes are properties of that trace.

A thrown exception is the `error` part of an `Outcome`. Reading a member of
`undefined` throws a `TypeError` naming the member. For example, a tick
before gl-init reaches `this.frameBuffers.peekFront()` and throws
`TypeError("peekFront")`.

## Model

| member | source | states |
|---|---|---|
| Flipping.Flipper.constructor | src/ts/flipper.ts:12-14 | a new flipper holds `front` in front and `back` behind it, in a fresh two-slot array |
| Flipping.Flipper.Flip | src/ts/flipper.ts:19-24 | returns the front from before the call; after it, the front is the old back and the back is the old front; the array still holds the same two values (same multiset) |
| Flipping.Flipper.PeekFront | src/ts/flipper.ts:29-31 | returns the front; it modifies nothing |
| Flipping.Flipper.PeekBack | src/ts/flipper.ts:36-38 | returns the back; it modifies nothing |
| Flipping.Flipped | src/ts/flipper.ts:21 | flipping exchanges the two roles and keeps the multiset {front, back} |
| Flipping.FlippedTwice | src/ts/flipper.ts:19-24 | two flips restore the original arrangement |
| Flipping.FlippedTimesParity | src/ts/flipper.ts:19-24 | after n flips the flipper is as built if n is even, and exchanged if n is odd |
| Flipping.FlipResultsAlternate | src/ts/flipper.ts:9-10 | of successive flips, the k-th returns the original front if k is even and the original back if k is odd |
| Flipping.FlippedTimesKeepsValues | src/ts/flipper.ts:13 | any number of flips keeps the multiset of the two held values: none is lost or duplicated |
| Flipping.FlipFreshTwice | src/ts/flipper.ts:9-10 | on a fresh flipper the first flip returns `front`, the second returns `back`, and then `front` is in front again |
| StackGl.GlContext.CreateFramebuffer | src/ts/twofbosimulation.ts:156-157 | `glFBO` yields a framebuffer of the requested shape with a name not used before, and logs its creation |
| StackGl.GlContext.CreateShader | src/ts/twofbosimulation.ts:64-66 | `glShader` yields a new program for a source that compiles, and fails with no effect for one that does not |
| JsValues.JsValue.LooselyNull | src/ts/twofbosimulation.ts:105 | `x == null` holds exactly when `x` is not a defined value |
| Simulation.NextRead | src/ts/twofbosimulation.ts:35-37 | the next read framebuffer is the flipper's front; before gl-init, `peekFront` on `undefined` throws a TypeError |
| Simulation.NextWrite | src/ts/twofbosimulation.ts:42-44 | the next write framebuffer is the flipper's back; before gl-init, it throws a TypeError |
| Simulation.TwoFBOSimulation.GetNextReadFBO | src/ts/twofbosimulation.ts:35-37 | returns `NextRead` of the current state and changes nothing |
| Simulation.TwoFBOSimulation.GetNextWriteFBO | src/ts/twofbosimulation.ts:42-44 | returns `NextWrite` of the current state and changes nothing |
| Simulation.TwoFBOSimulation.constructor | src/ts/twofbosimulation.ts:26-30 | stores the shell and both sources; the flipper and both shaders are unassigned (`Unstarted`) |
| Simulation.TwoFBOSimulation.Start | src/ts/twofbosimulation.ts:51-57 | appends exactly three listeners, in order: gl-init (with a callback), tick, gl-render |
| Simulation.TwoFBOSimulation.SetupInitHook | src/ts/twofbosimulation.ts:73-74 | registers one gl-init listener, which carries the callback if one was given |
| Simulation.TwoFBOSimulation.SetupTickHook | src/ts/twofbosimulation.ts:103-104 | registers one tick listener |
| Simulation.TwoFBOSimulation.SetupRenderHook | src/ts/twofbosimulation.ts:129-130 | registers one gl-render listener |
| Simulation.NewBuffers | src/ts/twofbosimulation.ts:154-158 | the two framebuffers are distinct, new, and both of shape [drawingBufferWidth, drawingBufferHeight] |
| Simulation.TwoFBOSimulation.MakeFrameBufferFlipper | src/ts/twofbosimulation.ts:154-158 | returns a fresh flipper whose front and back are `NewBuffers` of the context; logs the two creations, the front's first |
| Simulation.Init | src/ts/twofbosimulation.ts:73-97 | gl-init always installs the two new buffers. It throws the compile failure of the first rejected shader source, and a failure leaves the shader fields as they were, except that the simulation shader stays set when only the render source fails. It succeeds exactly when both sources compile, and then both shaders are set, to distinct programs with the right sources. It keeps `Invariant` |
| Simulation.InitCallsBackOnlyIfGiven | src/ts/twofbosimulation.ts:94-96 | the callback runs exactly when one was given and gl-init reached its end |
| Simulation.InitDrawsNothing | src/ts/twofbosimulation.ts:73-97 | gl-init binds no write target and never flips |
| Simulation.TwoFBOSimulation.OnGlInit | src/ts/twofbosimulation.ts:74-97 | the gl-init hook body changes the fields, the log and the context's names exactly as `Init` says |
| Simulation.Tick | src/ts/twofbosimulation.ts:104-123 | a tick throws the unset-shader error exactly when the simulation shader is `null` or `undefined`, and it does so before any effect or state change; without buffers it throws a TypeError; on success, the shaders are unchanged and `Invariant` is kept |
| Simulation.TickTrace | src/ts/twofbosimulation.ts:111-122 | a completed tick binds only the back buffer as the write target, samples only the front buffer, sets `resolution` to the front's shape and binds the simulation shader; it flips exactly once, as its last effect, after the draw |
| Simulation.TickIsolatesReadFromWrite | src/ts/twofbosimulation.ts:111-117 | in a reachable state, the buffers a tick writes and the buffers it samples are disjoint |
| Simulation.TickSwapsReadAndWrite | src/ts/twofbosimulation.ts:122 | after a tick, the buffer just written is the next read buffer, and the buffer just read is the next write buffer |
| Simulation.TwoFBOSimulation.OnTick | src/ts/twofbosimulation.ts:104-123 | the tick hook body flips the flipper in place and logs effects exactly as `Tick` says; the flipper object is not replaced |
| Simulation.Render | src/ts/twofbosimulation.ts:130-147 | a render never changes the state; it throws its own error exactly when the render shader is `null`; it succeeds exactly when the render shader is defined and buffers exist; an `undefined` shader ends in a TypeError |
| Simulation.RenderTrace | src/ts/twofbosimulation.ts:137-146 | a render binds no write target and never flips; a completed one samples only the front buffer, sets `resolution` to its shape, binds the render shader and draws |
| Simulation.TwoFBOSimulation.OnRender | src/ts/twofbosimulation.ts:130-147 | the render hook body leaves the state unchanged and logs exactly what `Render` says |
| Simulation.IntendedRender | src/ts/twofbosimulation.ts:131-133 | with the loose guard, a render throws its own error exactly when the render shader is unset; in every other case it is the render as written |
| Simulation.RenderGuardMissesUnsetShader | src/ts/twofbosimulation.ts:131-137 | a render before gl-init gets past the `=== null` guard and throws a TypeError, where the loose guard throws the unset-shader error |
| Simulation.RunKeepsShadersNonNull | src/ts/twofbosimulation.ts:78-80 | no run of frame hooks makes a shader field `null` |
| Simulation.RenderGuardNeverFires | src/ts/twofbosimulation.ts:131-133 | whether or not gl-init ran, and whatever frame hooks ran before, a render never throws the unset-render-shader error |
| Simulation.Run | src/ts/twofbosimulation.ts:103-148 | running frame hooks in sequence keeps `Invariant` |
| Simulation.RunFlipsBuffersPerTick | src/ts/twofbosimulation.ts:103-147 | after a completed run, the buffers are the starting pair flipped once per tick (renders do not flip), and the shaders are unchanged |
| Simulation.RunFlipsOncePerTick | src/ts/twofbosimulation.ts:103-147 | a completed run's trace holds exactly as many flips as the run holds ticks |
| Simulation.RunAlternatesReadBuffer | src/ts/twofbosimulation.ts:35-122 | after a completed run from buffers (a, b), the next read buffer is a and the next write buffer is b if the tick count is even, and the reverse if it is odd |

## Left out

- What the WebGL and stack.gl calls do is not modelled: `bindBuffer`,
  `bufferData`, `drawArrays`, `bind`, uniform assignment and attribute
  pointers. They are foreign library calls. Each becomes one opaque `Event`
  in the log.
- The `Float32Array` of triangle vertices is left out. It is fixed float
  data with no logic; the upload is logged as one `TrianglesUploaded` event.
- The vertex shader source (`triangles.vert`) is imported from a file outside
  the code. It is the same for both programs, so a `Shader` records only its
  fragment source.
- The Promise in `start` and gl-now's event dispatch are left out. They are
  asynchronous plumbing and an external event loop. `Start` records the
  registered listeners, which carry a callback that is always present (the
  promise's `resolve`). The environment calls the hook bodies (`OnGlInit`,
  `OnTick`, `OnRender`) directly.
- Whether a shader compiles is an input: `GlContext.rejected` holds the
  failing sources. `glFBO` is taken never to fail, because nothing in the
  code reacts to its failure.
- `setupShader` (src/ts/twofbosimulation.ts:64-66) is folded into
  `GlContext.CreateShader`, the one call it makes.
- `Simulation.Run` stops at the first hook that throws. How gl-now proceeds
  after a hook throws is not part of this model.
- src/ts/index.ts is not part of this model. It is the app entry point: a
  render loop with a frame counter.
- src/ts/stackglaliases.ts and src/ts/types/gl-fbo/index.d.ts are not part
  of this model. They hold type declarations only.
- webpack.common.js and webpack.config.js are not part of this model. They
  are build configuration.

## Findings

| source | as written | input that shows it | evidently intended | confidence | as-written member | corrected member |
|---|---|---|---|---|---|---|
| src/ts/twofbosimulation.ts:131-133 | the render guard tests `this.renderShader === null`, but no code ever assigns `null` to that field: it is `undefined` until gl-init sets it. The guard can never fire | a gl-render before gl-init has set the render shader, for example when gl-init threw because a shader failed to compile: the guard lets it through and `this.frameBuffers.peekFront()` or `this.renderShader.bind()` throws a TypeError | the loose `== null` the tick guard uses (line 105), so that a render with an unset shader throws "Render attempted with unset render shader" | medium, not executed | Simulation.RenderGuardMissesUnsetShader, Simulation.RenderGuardNeverFires | Simulation.IntendedRender |

`Simulation.Render`, `Simulation.Run` and `Simulation.TwoFBOSimulation.OnRender`
keep the guard as written, because the class models the code as it stands.
`Simulation.IntendedRender` is the corrected hook body. Its contract proves two
things: its guard fires exactly when the render shader is unset, and it agrees
with `Render` whenever the shader is defined.
