/**
 * The offscreen depth target (src/Framebuffer.h): a framebuffer object with a
 * 32-bit depth renderbuffer, sized independently of the screen, with begin()
 * and end() switching the bound framebuffer and the viewport between it and
 * the default framebuffer.
 */
module Framebuffers {
  import opened DefaultConsts
  import opened Gl

  /** The viewport begin() asks for: the target's uint32_t width and height passed as GLsizei. */
  function TargetViewport(width: u32, height: u32): Viewport
  {
    Viewport(0, 0, ToGLsizei(width), ToGLsizei(height))
  }

  /**
   * The viewport in force after begin(): the target's own size when both
   * dimensions fit in a GLsizei, otherwise the one that was in force before.
   */
  function BeginViewport(current: Viewport, width: u32, height: u32): Viewport
  {
    if width < GLsizeiLimit && height < GLsizeiLimit then Viewport(0, 0, width, height) else current
  }

  /** The commands begin() issues: bind the target, viewport to its own size. */
  function BeginCommands(fbo: nat, width: u32, height: u32): seq<Command>
  {
    [BindFramebuffer(fbo), SetViewport(TargetViewport(width, height))]
  }

  /** The commands end() issues: bind the default framebuffer, viewport to the fixed screen size. */
  function EndCommands(): seq<Command>
  {
    [BindFramebuffer(0), SetViewport(ScreenViewport())]
  }

  /** The commands the constructor issues once it has generated its two names. */
  function FramebufferCreateCommands(fbo: nat, depthBuffer: nat, width: u32, height: u32): seq<Command>
  {
    [ BindFramebuffer(fbo),
      BindRenderbuffer(depthBuffer),
      DepthRenderbufferStorage(width, height),
      AttachDepthRenderbuffer(depthBuffer),
      BindFramebuffer(0) ]
  }

  /** The constructor's commands leave the default framebuffer bound, change nothing else and draw nothing. */
  lemma FramebufferCreateRun(s: GlState, fbo: nat, depthBuffer: nat, width: u32, height: u32)
    ensures Exec(s, FramebufferCreateCommands(fbo, depthBuffer, width, height)).final == s.(fbo := 0)
    ensures Exec(s, FramebufferCreateCommands(fbo, depthBuffer, width, height)).draws == []
  {
    var c := FramebufferCreateCommands(fbo, depthBuffer, width, height);
    assert c == [c[0], c[1], c[2]] + [c[3], c[4]];
    ExecAppend(s, [c[0], c[1], c[2]], [c[3], c[4]]);
    ExecThree(s, c[0], c[1], c[2]);
    var t := Exec(s, [c[0], c[1], c[2]]).final;
    assert [c[3], c[4]] == [c[3]] + [c[4]];
    ExecAppend(t, [c[3]], [c[4]]);
    ExecSingle(t, c[3]);
    ExecSingle(Step(t, c[3]).final, c[4]);
    NoDrawCommands(s, c);
  }

  /**
   * begin() makes the target current at its own resolution, whatever was
   * bound before; a dimension of 2^31 or more is rejected by glViewport.
   */
  lemma BeginEffect(s: GlState, fbo: nat, width: u32, height: u32)
    ensures Exec(s, BeginCommands(fbo, width, height)).final
         == s.(fbo := fbo, viewport := BeginViewport(s.viewport, width, height))
    ensures Exec(s, BeginCommands(fbo, width, height)).draws == []
  {
    var b := BeginCommands(fbo, width, height);
    assert b == [b[0]] + [b[1]];
    ExecAppend(s, [b[0]], [b[1]]);
    ExecSingle(s, b[0]);
    ExecSingle(Step(s, b[0]).final, b[1]);
  }

  /** end() makes the default framebuffer current with the screen viewport, whatever was bound before. */
  lemma EndEffect(s: GlState)
    ensures Exec(s, EndCommands()).final == s.(fbo := 0, viewport := ScreenViewport())
    ensures Exec(s, EndCommands()).draws == []
  {
  }

  /** Calling begin() twice leaves the same state as calling it once. */
  lemma BeginIdempotent(s: GlState, fbo: nat, width: u32, height: u32)
    ensures Exec(s, BeginCommands(fbo, width, height) + BeginCommands(fbo, width, height)).final
         == Exec(s, BeginCommands(fbo, width, height)).final
  {
    var b := BeginCommands(fbo, width, height);
    ExecAppend(s, b, b);
    BeginEffect(s, fbo, width, height);
    BeginEffect(Exec(s, b).final, fbo, width, height);
  }

  /** Calling end() twice leaves the same state as calling it once. */
  lemma EndIdempotent(s: GlState)
    ensures Exec(s, EndCommands() + EndCommands()).final == Exec(s, EndCommands()).final
  {
    ExecAppend(s, EndCommands(), EndCommands());
    EndEffect(s);
    EndEffect(Exec(s, EndCommands()).final);
  }

  /**
   * begin() then end() gives back the state from before begin() exactly when
   * that state had the default framebuffer bound with the screen viewport:
   * end() restores fixed values, not the previous ones.
   */
  lemma BeginEndRestoresOnlyScreen(s: GlState, fbo: nat, width: u32, height: u32)
    ensures Exec(s, BeginCommands(fbo, width, height) + EndCommands()).final == s
        <==> s.fbo == 0 && s.viewport == ScreenViewport()
  {
    var b := BeginCommands(fbo, width, height);
    ExecAppend(s, b, EndCommands());
    BeginEffect(s, fbo, width, height);
    EndEffect(Exec(s, b).final);
  }

  class Framebuffer {
    var width: u32
    var height: u32
    var fbo: nat
    var depthBuffer: nat

    /**
     * Generates the framebuffer and depth renderbuffer names, allocates depth
     * storage of the given size, attaches it, and unbinds the framebuffer.
     */
    constructor (gl: GlContext, width: u32, height: u32)
      requires gl.Valid()
      modifies gl
      ensures gl.Valid() && gl.start == old(gl.start)
      ensures this.width == width && this.height == height
      ensures fbo == old(gl.nextName) && depthBuffer == fbo + 1 && gl.nextName == depthBuffer + 1
      ensures fbo != 0 && depthBuffer != 0
      ensures gl.trace == old(gl.trace) + FramebufferCreateCommands(fbo, depthBuffer, width, height)
      ensures gl.state == old(gl.state).(fbo := 0) && gl.Draws() == old(gl.Draws())
    {
      var f := gl.GenName();
      gl.Issue(BindFramebuffer(f));
      var d := gl.GenName();
      gl.Issue(BindRenderbuffer(d));
      gl.Issue(DepthRenderbufferStorage(width, height));
      gl.Issue(AttachDepthRenderbuffer(d));
      gl.Issue(BindFramebuffer(0));
      this.width := width;
      this.height := height;
      fbo := f;
      depthBuffer := d;
      ghost var created := FramebufferCreateCommands(f, d, width, height);
      assert gl.trace == old(gl.trace) + created;
      ExecAppend(gl.start, old(gl.trace), created);
      FramebufferCreateRun(old(gl.state), f, d, width, height);
    }

    /** Redirects drawing into this target, at its own size when glViewport accepts it. Only gl changes. */
    method Begin(gl: GlContext)
      requires gl.Valid()
      modifies gl
      ensures gl.Valid() && gl.start == old(gl.start) && gl.nextName == old(gl.nextName)
      ensures gl.trace == old(gl.trace) + BeginCommands(fbo, width, height)
      ensures gl.state == old(gl.state).(fbo := fbo, viewport := BeginViewport(old(gl.state).viewport, width, height))
    {
      gl.Issue(BindFramebuffer(fbo));
      gl.Issue(SetViewport(TargetViewport(width, height)));
    }

    /** Returns drawing to the default framebuffer and the screen viewport. Only gl changes. */
    method End(gl: GlContext)
      requires gl.Valid()
      modifies gl
      ensures gl.Valid() && gl.start == old(gl.start) && gl.nextName == old(gl.nextName)
      ensures gl.trace == old(gl.trace) + EndCommands()
      ensures gl.state == old(gl.state).(fbo := 0, viewport := ScreenViewport())
    {
      gl.Issue(BindFramebuffer(0));
      gl.Issue(SetViewport(ScreenViewport()));
    }
  }
}
