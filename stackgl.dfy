/** Opaque stand-ins for the WebGL context and the stack.gl objects
    (gl-fbo framebuffers, gl-shader programs) that the simulation drives.
    Nothing here models what the GL calls compute: each resource is a fresh
    name, and each side effect is an event appended to the context's log. */
module StackGl {
  import opened JsValues

  /** A framebuffer's `shape`: `[width, height]`. */
  datatype Shape = Shape(width: nat, height: nat)

  /** A framebuffer made by `glFBO`, told apart from every other by its name. */
  datatype Framebuffer = Framebuffer(name: nat, shape: Shape)

  /** A program made by `glShader` from the bundled triangle vertex shader
      and the given fragment source. */
  datatype Shader = Shader(name: nat, fragmentSource: string)

  /** One observable side effect, in the order it is issued. */
  datatype Event =
    | FramebufferCreated(fb: Framebuffer)          // glFBO(gl, shape)
    | ShaderCreated(shader: Shader)                // glShader(gl, vert, frag)
    | ArrayBufferBound                             // gl.bindBuffer(ARRAY_BUFFER, gl.createBuffer())
    | TrianglesUploaded                            // gl.bufferData(ARRAY_BUFFER, triangles, STATIC_DRAW)
    | CallbackInvoked                              // the init callback ran
    | WriteTargetBound(fb: Framebuffer)            // fbo.bind(): draws now land in fb
    | ShaderBound(shader: Shader)                  // shader.bind()
    | SamplerBound(uniform: string, fb: Framebuffer)  // uniforms[u] = fb.color[0].bind()
    | ShapeUniformSet(uniform: string, shape: Shape)  // uniforms[u] = fb.shape
    | AttributePointed(attribute: string)          // attributes[a].pointer()
    | TrianglesDrawn(first: nat, count: nat)       // gl.drawArrays(TRIANGLES, first, count)
    | BuffersFlipped                               // the framebuffer flipper was flipped

  /** What the simulation can observe of a context before it acts. */
  datatype GlView = GlView(drawingBufferWidth: nat, drawingBufferHeight: nat,
                           rejected: set<string>, nextName: nat)

  /** The WebGL context of the gl-now shell. `rejected` holds the fragment
      sources that fail to compile or link; `nextName` is the next unused
      resource name; `log` is every side effect issued so far. */
  class GlContext {
    const drawingBufferWidth: nat
    const drawingBufferHeight: nat
    const rejected: set<string>
    var nextName: nat
    var log: seq<Event>

    constructor (width: nat, height: nat, rejected: set<string>)
      ensures View() == GlView(width, height, rejected, 0) && log == []
    {
      drawingBufferWidth, drawingBufferHeight := width, height;
      this.rejected := rejected;
      nextName, log := 0, [];
    }

    function View(): GlView
      reads this
    {
      GlView(drawingBufferWidth, drawingBufferHeight, rejected, nextName)
    }

    /** `glFBO(gl, shape)`: a new framebuffer of that shape. */
    method CreateFramebuffer(shape: Shape) returns (fb: Framebuffer)
      modifies this
      ensures fb == Framebuffer(old(nextName), shape)
      ensures nextName == old(nextName) + 1
      ensures log == old(log) + [FramebufferCreated(fb)]
    {
      fb := Framebuffer(nextName, shape);
      nextName := nextName + 1;
      log := log + [FramebufferCreated(fb)];
    }

    /** `glShader(gl, triangleShaderSource, fragmentSource)`: a new program,
        or nothing (gl-shader throws) when the source does not compile. */
    method CreateShader(fragmentSource: string) returns (r: Option<Shader>)
      modifies this
      ensures fragmentSource in rejected ==>
        r == None && nextName == old(nextName) && log == old(log)
      ensures fragmentSource !in rejected ==>
        r == Some(Shader(old(nextName), fragmentSource)) &&
        nextName == old(nextName) + 1 &&
        log == old(log) + [ShaderCreated(r.value)]
    {
      if fragmentSource in rejected {
        r := None;
      } else {
        var shader := Shader(nextName, fragmentSource);
        nextName := nextName + 1;
        log := log + [ShaderCreated(shader)];
        r := Some(shader);
      }
    }

    /** Issue one side effect that allocates nothing. */
    method Emit(e: Event)
      modifies this`log
      ensures log == old(log) + [e]
    {
      log := log + [e];
    }
  }
}
