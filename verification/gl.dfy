/**
 * The slice of OpenGL state the renderer touches, as data. Every GL call the
 * core makes is a Command; a GlContext keeps the current GlState and the
 * trace of commands issued so far, and Exec replays a trace to say what state
 * it leaves and which draws it performs, with the state each draw sees.
 */
module Gl {
  import opened Linear
  import opened DefaultConsts

  datatype Option<T> = None | Some(value: T)

  /** The rectangle set by glViewport(x, y, width, height). */
  datatype Viewport = Viewport(x: int, y: int, width: int, height: int)

  /** The first uint32_t value that GLsizei, a 32-bit signed int, cannot hold. */
  const GLsizeiLimit: int := 0x8000_0000

  /** A uint32_t passed as a GLsizei: the same 32 bits read as two's complement. */
  function ToGLsizei(x: u32): (r: int)
    ensures -GLsizeiLimit <= r < GLsizeiLimit
    ensures r < 0 <==> x >= GLsizeiLimit
    ensures x < GLsizeiLimit ==> r == x
    ensures (r + U32Modulus) % U32Modulus == x
  {
    if x < GLsizeiLimit then x else x - U32Modulus
  }

  /**
   * The viewport after glViewport(requested): a negative width or height is
   * GL_INVALID_VALUE, and a call that raises an error changes nothing.
   */
  function ViewportAfter(current: Viewport, requested: Viewport): Viewport
  {
    if requested.width < 0 || requested.height < 0 then current else requested
  }

  /** The viewport of the default framebuffer: the whole window. */
  function ScreenViewport(): Viewport
  {
    Viewport(0, 0, kScreenWidth, kScreenHeight)
  }

  /** A value given to a shader uniform. */
  datatype UniformValue =
    | MatValue(m: Mat4)
    | Vec3Value(v: Vec3)
    | RealValue(r: real)
    | IntValue(i: int)

  /** The GL calls of the core; handles (framebuffer, program, vertex array, ...) are opaque naturals. */
  datatype Command =
    | BindFramebuffer(fbo: nat)                          // glBindFramebuffer(GL_FRAMEBUFFER, fbo)
    | SetViewport(viewport: Viewport)                    // glViewport
    | BindRenderbuffer(rbo: nat)                         // glBindRenderbuffer(GL_RENDERBUFFER, rbo)
    | DepthRenderbufferStorage(width: u32, height: u32)  // glRenderbufferStorage(..., GL_DEPTH_COMPONENT32, w, h)
    | AttachDepthRenderbuffer(rbo: nat)                  // glFramebufferRenderbuffer(..., GL_DEPTH_ATTACHMENT, ...)
    | BindVertexArray(vao: nat)                          // glBindVertexArray
    | UploadVertices(vbo: nat, vertexCount: nat)         // glBindBuffer + glBufferData on GL_ARRAY_BUFFER, attribute layout
    | UploadIndices(ibo: nat, indexCount: nat)           // glBindBuffer + glBufferData on GL_ELEMENT_ARRAY_BUFFER
    | ClearColorDepth                                    // glClear(GL_COLOR_BUFFER_BIT | GL_DEPTH_BUFFER_BIT)
    | UseProgram(program: nat)                           // Shader::bind
    | SetUniform(program: nat, name: string, value: UniformValue)  // Shader::setValue
    | DrawElements(count: u32)                           // glDrawElements(GL_TRIANGLES, count, ...)
    | ActiveTexture(unit: nat)                           // glActiveTexture(GL_TEXTURE0 + unit)
    | BindTexture2D(texture: nat)                        // glBindTexture(GL_TEXTURE_2D, texture)
    | DeleteObject(vao: nat, vbo: nat, ibo: nat)         // deleteObject: release an object's buffers

  /** The GL state the core reads back through its draws. */
  datatype GlState = GlState(
    fbo: nat,
    viewport: Viewport,
    program: nat,
    vao: nat,
    uniforms: map<(nat, string), UniformValue>)

  /** What one glDrawElements sees: the target, the geometry, and the uniforms the shaders read. */
  datatype DrawEvent = DrawEvent(
    fbo: nat,
    viewport: Viewport,
    program: nat,
    vao: nat,
    count: u32,
    model: Option<UniformValue>,
    lightSpace: Option<UniformValue>)

  /** The state a run of commands leaves, and the draws it performed, in order. */
  datatype Run = Run(final: GlState, draws: seq<DrawEvent>)

  const ModelUniform: string := "model"
  const LightSpaceUniform: string := "lightSpaceTrans"

  function Uniform(s: GlState, program: nat, name: string): Option<UniformValue>
  {
    if (program, name) in s.uniforms then Some(s.uniforms[(program, name)]) else None
  }

  /** The effect of one command. */
  function Step(s: GlState, c: Command): Run
  {
    match c
    case BindFramebuffer(f) => Run(s.(fbo := f), [])
    case SetViewport(v) => Run(s.(viewport := ViewportAfter(s.viewport, v)), [])
    case BindVertexArray(a) => Run(s.(vao := a), [])
    case UseProgram(p) => Run(s.(program := p), [])
    case SetUniform(p, name, v) => Run(s.(uniforms := s.uniforms[(p, name) := v]), [])
    case DrawElements(n) =>
      Run(s, [DrawEvent(s.fbo, s.viewport, s.program, s.vao, n,
                        Uniform(s, s.program, ModelUniform), Uniform(s, s.program, LightSpaceUniform))])
    case _ => Run(s, [])
  }

  /** Replays a trace from state s. */
  function Exec(s: GlState, cmds: seq<Command>): Run
    decreases |cmds|
  {
    if cmds == [] then Run(s, [])
    else
      var first := Step(s, cmds[0]);
      var rest := Exec(first.final, cmds[1..]);
      Run(rest.final, first.draws + rest.draws)
  }

  /** Running a + b is running a and then b from where a left off. */
  lemma {:induction false} ExecAppend(s: GlState, a: seq<Command>, b: seq<Command>)
    ensures Exec(s, a + b).final == Exec(Exec(s, a).final, b).final
    ensures Exec(s, a + b).draws == Exec(s, a).draws + Exec(Exec(s, a).final, b).draws
    decreases |a|
  {
    if a == [] {
      assert a + b == b;
    } else {
      assert (a + b)[1..] == a[1..] + b;
      ExecAppend(Step(s, a[0]).final, a[1..], b);
    }
  }

  /** Running a one-command trace is taking that one step. */
  lemma ExecSingle(s: GlState, c: Command)
    ensures Exec(s, [c]) == Step(s, c)
  {
    assert [c][1..] == [];
  }

  /** Running a three-command trace is taking its three steps in turn. */
  lemma ExecThree(s: GlState, a: Command, b: Command, c: Command)
    ensures Exec(s, [a, b, c]).final == Step(Step(Step(s, a).final, b).final, c).final
  {
    var s1 := Step(s, a).final;
    var s2 := Step(s1, b).final;
    assert [a, b, c][1..] == [b, c];
    assert [b, c][1..] == [c];
    ExecSingle(s2, c);
  }

  /** A trace without a DrawElements command draws nothing. */
  lemma {:induction false} NoDrawCommands(s: GlState, cmds: seq<Command>)
    requires forall i :: 0 <= i < |cmds| ==> !cmds[i].DrawElements?
    ensures Exec(s, cmds).draws == []
    decreases |cmds|
  {
    if cmds != [] {
      NoDrawCommands(Step(s, cmds[0]).final, cmds[1..]);
    }
  }

  /** The draws of a trace are exactly its DrawElements commands, one each. */
  function CountDraws(cmds: seq<Command>): nat
  {
    if cmds == [] then 0 else (if cmds[0].DrawElements? then 1 else 0) + CountDraws(cmds[1..])
  }

  lemma {:induction false} ExecDrawCount(s: GlState, cmds: seq<Command>)
    ensures |Exec(s, cmds).draws| == CountDraws(cmds)
    decreases |cmds|
  {
    if cmds != [] {
      ExecDrawCount(Step(s, cmds[0]).final, cmds[1..]);
    }
  }

  /**
   * The GL context: the current state, the commands issued so far, and the
   * next name glGen* hands out. Valid() says the state is the one the trace
   * leaves when replayed from the state the context started in.
   */
  class GlContext {
    var state: GlState
    var trace: seq<Command>
    var nextName: nat
    ghost var start: GlState

    ghost predicate Valid()
      reads this
    {
      state == Exec(start, trace).final && nextName > 0
    }

    /** The draws performed since the context was created. */
    ghost function Draws(): seq<DrawEvent>
      reads this
    {
      Exec(start, trace).draws
    }

    constructor (initial: GlState)
      ensures Valid() && state == initial && trace == [] && nextName == 1
    {
      state := initial;
      trace := [];
      nextName := 1;
      start := initial;
    }

    /** Issues one GL call. */
    method Issue(c: Command)
      requires Valid()
      modifies this
      ensures Valid() && start == old(start) && nextName == old(nextName)
      ensures trace == old(trace) + [c]
      ensures state == Step(old(state), c).final
    {
      ExecAppend(start, trace, [c]);
      state := Step(state, c).final;
      trace := trace + [c];
    }

    /** glGen*: a name never handed out before; names are never 0, the default object. */
    method GenName() returns (name: nat)
      requires Valid()
      modifies this
      ensures Valid() && start == old(start) && trace == old(trace) && state == old(state)
      ensures name == old(nextName) && name != 0 && nextName == name + 1
    {
      name := nextName;
      nextName := nextName + 1;
    }
  }
}
