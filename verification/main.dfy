/**
 * The program's driver (main in src/main.cpp): the setup that fills the scene
 * with a plane and thirty boxes, and the per-frame two-pass sequence — the
 * light-space transform computed once, every object drawn into the depth
 * target with the depth shader, then every object drawn to the screen with the
 * PCSS shader reading the depth map.
 */
module MainLoop {
  import opened Linear
  import opened DefaultConsts
  import opened Gl
  import opened Objects
  import opened Framebuffers
  import opened Scenes

  /** The number of boxes the set-up scatters over the plane (a local constant of main). */
  const kBoxCount: nat := 30

  // ---------------------------------------------------------------- names

  function DigitChar(d: nat): char
    requires d < 10
  {
    (48 + d) as char
  }

  /** std::to_string on an unsigned value: its decimal digits, most significant first. */
  function NatToString(n: nat): (r: string)
    ensures |r| >= 1 && (n >= 10 ==> |r| >= 2)
    decreases n
  {
    if n < 10 then [DigitChar(n)] else NatToString(n / 10) + [DigitChar(n % 10)]
  }

  /** Different numbers have different decimal spellings. */
  lemma {:induction false} NatToStringInjective(a: nat, b: nat)
    requires NatToString(a) == NatToString(b)
    ensures a == b
    decreases a
  {
    if a >= 10 && b >= 10 {
      var sa, sb := NatToString(a), NatToString(b);
      assert sa[|sa| - 1] == DigitChar(a % 10) && sb[|sb| - 1] == DigitChar(b % 10);
      assert sa[..|sa| - 1] == NatToString(a / 10) && sb[..|sb| - 1] == NatToString(b / 10);
      NatToStringInjective(a / 10, b / 10);
    }
  }

  const PlaneName: string := "plane"

  /** "box_" + std::to_string(i) */
  function BoxName(i: nat): string
  {
    "box_" + NatToString(i)
  }

  /** The names of the first n boxes. */
  function BoxNames(n: nat): set<string>
  {
    set i | 0 <= i < n :: BoxName(i)
  }

  lemma BoxNamesNext(n: nat)
    ensures BoxNames(n + 1) == BoxNames(n) + {BoxName(n)}
  {
  }

  lemma BoxNameInjective(i: nat, j: nat)
    requires BoxName(i) == BoxName(j)
    ensures i == j
  {
    assert NatToString(i) == BoxName(i)[4..];
    assert NatToString(j) == BoxName(j)[4..];
    NatToStringInjective(i, j);
  }

  /** Box i's name is none of the earlier boxes' names, and not the plane's. */
  lemma BoxNameFresh(i: nat)
    ensures BoxName(i) !in BoxNames(i)
    ensures BoxName(i) != PlaneName
  {
    if BoxName(i) in BoxNames(i) {
      var j :| 0 <= j < i && BoxName(i) == BoxName(j);
      BoxNameInjective(i, j);
    }
    assert BoxName(i)[0] == 'b' != PlaneName[0];
  }

  /** The setup code's names are all distinct: n boxes give n names, none of them "plane". */
  lemma {:induction false} BoxNamesCount(n: nat)
    ensures |BoxNames(n)| == n
    ensures PlaneName !in BoxNames(n)
  {
    if n > 0 {
      BoxNamesCount(n - 1);
      BoxNameFresh(n - 1);
      BoxNamesNext(n - 1);
    }
  }

  /** The keys the scene holds after setup. */
  function SceneNames(): set<string>
  {
    {PlaneName} + BoxNames(kBoxCount)
  }

  lemma SceneNamesCount()
    ensures |SceneNames()| == kBoxCount + 1
  {
    BoxNamesCount(kBoxCount);
  }

  // ---------------------------------------------------------------- setup

  /** Where box i is placed, from the three uniform samples x, y, z in [0, 1). */
  function BoxPosition(sample: Vec3): Vec3
  {
    Vec3(sample.x * 8.0 - 4.0, sample.y * 3.0, sample.z * 8.0 - 4.0)
  }

  /** What createPlane issues when its vertex array is named vao: 4 vertices and 6 indices. */
  function PlaneCommands(vao: nat): seq<Command>
  {
    ObjectCreateCommands(vao, vao + 1, vao + 2, 4, 6)
  }

  /** What createBox issues when its vertex array is named vao: 24 vertices and 36 indices. */
  function BoxCommands(vao: nat): seq<Command>
  {
    ObjectCreateCommands(vao, vao + 1, vao + 2, 24, 36)
  }

  /**
   * What the set-up issues: the plane's uploads with vertex array lo, then those
   * of boxes 0..n-1, box i taking the three names from lo + 3(i + 1) on.
   */
  function SetupCommands(lo: nat, n: nat): seq<Command>
    decreases n
  {
    if n == 0 then PlaneCommands(lo) else SetupCommands(lo, n - 1) + BoxCommands(lo + 3 * n)
  }

  /** The set-up's commands draw nothing and, of the whole GL state, change only the bound vertex array. */
  lemma {:induction false} SetupCommandsRun(s: GlState, lo: nat, n: nat)
    ensures Exec(s, SetupCommands(lo, n)).final == s.(vao := lo + 3 * n)
    ensures Exec(s, SetupCommands(lo, n)).draws == []
    decreases n
  {
    if n == 0 {
      ObjectCreateRun(s, lo, lo + 1, lo + 2, 4, 6);
    } else {
      var vao := lo + 3 * n;
      SetupCommandsRun(s, lo, n - 1);
      ExecAppend(s, SetupCommands(lo, n - 1), BoxCommands(vao));
      ObjectCreateRun(s.(vao := lo + 3 * (n - 1)), vao, vao + 1, vao + 2, 24, 36);
    }
  }

  /** One iteration of the set-up loop: create a box, register it under a new name, place and scale it. */
  method AddBox(gl: GlContext, scene: Scene, name: string, position: Vec3, scale: Vec3)
    requires gl.Valid() && name !in scene.objects
    modifies gl, scene
    ensures gl.Valid() && gl.start == old(gl.start) && gl.nextName == old(gl.nextName) + 3
    ensures var vao := old(gl.nextName);
      scene.objects == old(scene.objects)[name := Object(vao, vao + 1, vao + 2, position, scale, 36)]
    ensures gl.trace == old(gl.trace) + BoxCommands(old(gl.nextName))
    ensures gl.state == old(gl.state).(vao := old(gl.nextName)) && gl.Draws() == old(gl.Draws())
  {
    var box := CreateBox(gl);
    scene.AddObj(name, box);
    scene.SetWorldPos(name, position);
    scene.SetScale(name, scale);
  }

  /** Register the plane under "plane", scaled by 10 on every axis. */
  method AddPlane(gl: GlContext, scene: Scene)
    requires gl.Valid() && scene.objects == map[]
    modifies gl, scene
    ensures gl.Valid() && gl.start == old(gl.start) && gl.nextName == old(gl.nextName) + 3
    ensures var vao := old(gl.nextName);
      scene.objects == map[PlaneName := Object(vao, vao + 1, vao + 2, Zero3(), Vec3(10.0, 10.0, 10.0), 6)]
    ensures gl.trace == old(gl.trace) + PlaneCommands(old(gl.nextName))
    ensures gl.state == old(gl.state).(vao := old(gl.nextName)) && gl.Draws() == old(gl.Draws())
  {
    var plane := CreatePlane(gl);
    scene.AddObj(PlaneName, plane);
    scene.SetScale(PlaneName, Vec3(10.0, 10.0, 10.0));
  }

  /** Register box n, placed and scaled from its samples, under its own name. */
  method AddBoxStep(gl: GlContext, scene: Scene, n: nat, positions: seq<Vec3>, scales: seq<Vec3>,
                    ghost lo: nat, ghost t0: seq<Command>)
    requires n < |positions| && n < |scales|
    requires SetupLoop(gl, scene, n, positions, scales, lo, t0)
    modifies gl, scene
    ensures gl.start == old(gl.start) && gl.nextName == old(gl.nextName) + 3
    ensures gl.trace == old(gl.trace) + BoxCommands(old(gl.nextName))
    ensures gl.state == old(gl.state).(vao := old(gl.nextName)) && gl.Draws() == old(gl.Draws())
    ensures SetupLoop(gl, scene, n + 1, positions, scales, lo, t0)
  {
    SetupStep(scene.objects, n, positions, scales, lo, gl.nextName);
    BoxNameFresh(n);
    ghost var done := SetupCommands(lo, n);
    ghost var box := BoxCommands(gl.nextName);
    SetupCommandsNext(lo, n);
    AddBox(gl, scene, BoxName(n), BoxPosition(positions[n]), scales[n]);
    calc {
      gl.trace;
      old(gl.trace) + box;
      (t0 + done) + box;
      t0 + (done + box);
      t0 + SetupCommands(lo, n + 1);
    }
  }

  lemma SetupCommandsNext(lo: nat, n: nat)
    ensures SetupCommands(lo, n + 1) == SetupCommands(lo, n) + BoxCommands(lo + 3 * (n + 1))
  {
  }

  /**
   * The GL side of the set-up after the plane and n boxes, from a context whose
   * trace was t0 and next name lo: exactly the set-up's commands were appended
   * and 3(n + 1) names were taken.
   */
  ghost predicate SetupIssued(gl: GlContext, t0: seq<Command>, lo: nat, n: nat)
    reads gl
  {
    gl.nextName == lo + 3 * (n + 1) && gl.trace == t0 + SetupCommands(lo, n)
  }

  /** What the set-up loop keeps after n boxes: a valid context, the scene state and the GL side. */
  ghost predicate SetupLoop(gl: GlContext, scene: Scene, n: nat, positions: seq<Vec3>, scales: seq<Vec3>,
                            lo: nat, t0: seq<Command>)
    requires n <= |positions| && n <= |scales|
    reads gl, scene
  {
    && gl.Valid()
    && SetupState(scene.objects, n, positions, scales, lo, gl.nextName)
    && SetupIssued(gl, t0, lo, n)
  }

  /** The scene holding only the plane is the set-up state before any box. */
  lemma SetupStart(objects: map<string, Object>, positions: seq<Vec3>, scales: seq<Vec3>, lo: nat, hi: nat)
    requires hi == lo + 3
    requires objects == map[PlaneName := Object(lo, lo + 1, lo + 2, Zero3(), Vec3(10.0, 10.0, 10.0), 6)]
    ensures SetupState(objects, 0, positions, scales, lo, hi)
  {
    assert BoxNames(0) == {};
    assert objects.Keys == {PlaneName};
  }

  /**
   * What the set-up has built after n boxes: the plane and boxes 0..n-1,
   * each placed and scaled from its samples, with distinct vertex arrays
   * named from lo up to (not including) hi.
   */
  ghost predicate SetupState(objects: map<string, Object>, n: nat, positions: seq<Vec3>, scales: seq<Vec3>,
                             lo: nat, hi: nat)
    requires n <= |positions| && n <= |scales|
  {
    && objects.Keys <= {PlaneName} + BoxNames(n)
    && |objects| == n + 1
    && PlaneName in objects
    && objects[PlaneName].worldPos == Zero3()
    && objects[PlaneName].scale == Vec3(10.0, 10.0, 10.0)
    && objects[PlaneName].count == 6
    && (forall j :: 0 <= j < n ==> BoxName(j) in objects)
    && (forall j :: 0 <= j < n ==>
          var b := objects[BoxName(j)];
          b.worldPos == BoxPosition(positions[j]) && b.scale == scales[j] && b.count == 36)
    && DistinctHandles(objects)
    && (forall k :: k in objects ==> lo <= objects[k].vao < hi)
  }

  /** Registering box n under its fresh name extends the set-up state by one box. */
  lemma SetupStep(objects: map<string, Object>, n: nat, positions: seq<Vec3>, scales: seq<Vec3>, lo: nat, hi: nat)
    requires n < |positions| && n < |scales|
    requires SetupState(objects, n, positions, scales, lo, hi)
    ensures SetupState(objects[BoxName(n) := Object(hi, hi + 1, hi + 2, BoxPosition(positions[n]), scales[n], 36)],
                       n + 1, positions, scales, lo, hi + 3)
  {
    BoxNameFresh(n);
    var o := Object(hi, hi + 1, hi + 2, BoxPosition(positions[n]), scales[n], 36);
    var next := objects[BoxName(n) := o];
    BoxNamesNext(n);
    forall j | 0 <= j < n + 1
      ensures BoxName(j) in next
      ensures var b := next[BoxName(j)];
        b.worldPos == BoxPosition(positions[j]) && b.scale == scales[j] && b.count == 36
    {
      if j < n {
        assert BoxName(j) in objects && BoxName(j) != BoxName(n);
      }
    }
    assert next.Keys <= {PlaneName} + BoxNames(n + 1);
    assert |next| == n + 2;
    assert next[PlaneName] == objects[PlaneName];
    assert DistinctHandles(next);
    assert forall k :: k in next ==> lo <= next[k].vao < hi + 3;
    assert SetupState(next, n + 1, positions, scales, lo, hi + 3);
  }

  /** A subset as large as its superset is the superset. */
  lemma SubsetSameSize(a: set<string>, b: set<string>)
    requires a <= b && |a| == |b|
    ensures a == b
  {
    if a != b {
      var x :| x in b && x !in a;
      assert a <= b - {x};
      assert |b - {x}| == |b| - 1;
      SubsetSize(a, b - {x});
    }
  }

  lemma {:induction false} SubsetSize(a: set<string>, b: set<string>)
    requires a <= b
    ensures |a| <= |b|
    decreases |b|
  {
    if a != {} {
      var x :| x in a;
      SubsetSize(a - {x}, b - {x});
    }
  }

  /** Once all boxes are in, the scene holds exactly the plane and the thirty boxes. */
  lemma SetupDone(objects: map<string, Object>, positions: seq<Vec3>, scales: seq<Vec3>, lo: nat, hi: nat)
    requires |positions| == kBoxCount && |scales| == kBoxCount
    requires SetupState(objects, kBoxCount, positions, scales, lo, hi)
    ensures objects.Keys == SceneNames()
  {
    SceneNamesCount();
    SubsetSameSize(objects.Keys, SceneNames());
  }

  /**
   * The scene set-up: register the plane, scaled by 10, then thirty boxes
   * "box_0" .. "box_29", each placed and scaled from the random samples
   * (positions[i] the three uniform samples of box i, scales[i] its three
   * scale samples).
   */
  method Setup(gl: GlContext, positions: seq<Vec3>, scales: seq<Vec3>) returns (scene: Scene)
    requires gl.Valid() && |positions| == kBoxCount && |scales| == kBoxCount
    modifies gl
    ensures fresh(scene)
    ensures gl.Valid() && gl.start == old(gl.start)
    ensures SetupState(scene.objects, kBoxCount, positions, scales, old(gl.nextName), gl.nextName)
    ensures scene.objects.Keys == SceneNames() && |scene.objects| == kBoxCount + 1
    ensures gl.trace == old(gl.trace) + SetupCommands(old(gl.nextName), kBoxCount)
    ensures gl.nextName == old(gl.nextName) + 3 * (kBoxCount + 1)
    ensures gl.state == old(gl.state).(vao := old(gl.nextName) + 3 * kBoxCount) && gl.Draws() == old(gl.Draws())
  {
    scene := new Scene();
    AddPlane(gl, scene);
    SetupStart(scene.objects, positions, scales, old(gl.nextName), gl.nextName);
    assert SetupCommands(old(gl.nextName), 0) == PlaneCommands(old(gl.nextName));
    AddBoxes(gl, scene, positions, scales, old(gl.nextName), old(gl.trace));
    SetupDone(scene.objects, positions, scales, old(gl.nextName), gl.nextName);
    ExecAppend(gl.start, old(gl.trace), SetupCommands(old(gl.nextName), kBoxCount));
    SetupCommandsRun(old(gl.state), old(gl.nextName), kBoxCount);
  }

  /** The set-up's loop: boxes 0 .. kBoxCount-1 in turn, each registered under its own name. */
  method AddBoxes(gl: GlContext, scene: Scene, positions: seq<Vec3>, scales: seq<Vec3>,
                  ghost lo: nat, ghost t0: seq<Command>)
    requires |positions| == kBoxCount && |scales| == kBoxCount
    requires SetupLoop(gl, scene, 0, positions, scales, lo, t0)
    modifies gl, scene
    ensures gl.start == old(gl.start)
    ensures SetupLoop(gl, scene, kBoxCount, positions, scales, lo, t0)
  {
    var i := 0;
    while i < kBoxCount
      invariant 0 <= i <= kBoxCount
      invariant gl.start == old(gl.start)
      invariant SetupLoop(gl, scene, i, positions, scales, lo, t0)
    {
      AddBoxStep(gl, scene, i, positions, scales, lo, t0);
      i := i + 1;
    }
  }

  /**
   * The shadow-map target: a framebuffer at the depth-map resolution, created
   * with nothing bound afterwards. Its begin() viewport is never the screen's.
   */
  method CreateDepthTarget(gl: GlContext) returns (framebuffer: Framebuffer)
    requires gl.Valid()
    modifies gl
    ensures fresh(framebuffer)
    ensures gl.Valid() && gl.start == old(gl.start)
    ensures framebuffer.width == kDepthMapWidth && framebuffer.height == kDepthMapHeight
    ensures framebuffer.fbo != 0 && gl.state.fbo == 0
    ensures framebuffer.width < GLsizeiLimit && framebuffer.height < GLsizeiLimit
    ensures Viewport(0, 0, framebuffer.width, framebuffer.height) != ScreenViewport()
    ensures framebuffer.fbo == old(gl.nextName) && framebuffer.depthBuffer == framebuffer.fbo + 1
    ensures gl.nextName == framebuffer.depthBuffer + 1
    ensures gl.trace == old(gl.trace) + FramebufferCreateCommands(framebuffer.fbo, framebuffer.depthBuffer,
                                                                   kDepthMapWidth, kDepthMapHeight)
    ensures gl.state == old(gl.state).(fbo := 0) && gl.Draws() == old(gl.Draws())
  {
    framebuffer := new Framebuffer(gl, kDepthMapWidth, kDepthMapHeight);
  }

  // ---------------------------------------------------------------- one frame

  /** The two shadow algorithms the overlay toggles between; only PCSS has a lighting pass. */
  datatype ShadowAlgorithm = Pcss | Vssm

  /**
   * What a frame reads from the camera and the light. Their matrices come
   * from glm::lookAt, glm::perspective and glm::ortho, which are not modelled.
   */
  datatype FrameInputs = FrameInputs(
    cameraPos: Vec3,
    cameraProj: Mat4,
    cameraView: Mat4,
    lightPos: Vec3,
    lightWidth: real,
    lightProj: Mat4,
    lightView: Mat4)

  /** light.getProj() * light.getView() */
  function LightSpace(inputs: FrameInputs): Mat4
  {
    MatMul(inputs.lightProj, inputs.lightView)
  }

  /** Inside begin/end: clear, activate the depth shader, give it the light-space transform. */
  function DepthSetup(depthProgram: nat, ls: Mat4): seq<Command>
  {
    [ClearColorDepth, UseProgram(depthProgram), SetUniform(depthProgram, LightSpaceUniform, MatValue(ls))]
  }

  /** The PCSS shader's camera and light uniforms, set before the light-space transform. */
  function CameraLightUniforms(pcss: nat, inputs: FrameInputs): seq<Command>
  {
    [ SetUniform(pcss, "cameraPos", Vec3Value(inputs.cameraPos)),
      SetUniform(pcss, "light.pos", Vec3Value(inputs.lightPos)),
      SetUniform(pcss, "light.lightWidth", RealValue(inputs.lightWidth)),
      SetUniform(pcss, "proj", MatValue(inputs.cameraProj)),
      SetUniform(pcss, "view", MatValue(inputs.cameraView)) ]
  }

  /** Bind the depth map to texture unit 0 and point the shader's sampler at it. */
  function DepthMapBinding(pcss: nat, depthMap: nat): seq<Command>
  {
    [ActiveTexture(0), BindTexture2D(depthMap), SetUniform(pcss, "DepthMap", IntValue(0))]
  }

  function LightingSetup(pcss: nat, inputs: FrameInputs, ls: Mat4, depthMap: nat): seq<Command>
  {
    [ClearColorDepth, UseProgram(pcss)] + CameraLightUniforms(pcss, inputs)
      + [SetUniform(pcss, LightSpaceUniform, MatValue(ls))] + DepthMapBinding(pcss, depthMap)
  }

  /** The depth pass: begin(), set-up, render with the depth shader. */
  function DepthPass(objects: map<string, Object>, order: seq<string>, fbo: nat, width: u32, height: u32,
                     depthProgram: nat, ls: Mat4): seq<Command>
    requires InMap(order, objects)
  {
    BeginCommands(fbo, width, height) + DepthSetup(depthProgram, ls) + DrawAll(objects, order, depthProgram)
  }

  /** The lighting pass: nothing for VSSM; set-up and render with the PCSS shader for PCSS. */
  function LightingPass(objects: map<string, Object>, order: seq<string>, pcss: nat, inputs: FrameInputs,
                        ls: Mat4, depthMap: nat, algorithm: ShadowAlgorithm): seq<Command>
    requires InMap(order, objects)
  {
    if algorithm == Pcss then LightingSetup(pcss, inputs, ls, depthMap) + DrawAll(objects, order, pcss) else []
  }

  /** The GL calls of one frame, from the light-space transform to the end of the lighting pass. */
  function FrameCommands(objects: map<string, Object>, depthOrder: seq<string>, lightOrder: seq<string>,
                         fbo: nat, width: u32, height: u32, depthProgram: nat, pcss: nat, depthMap: nat,
                         inputs: FrameInputs, algorithm: ShadowAlgorithm): seq<Command>
    requires InMap(depthOrder, objects) && InMap(lightOrder, objects)
  {
    var ls := LightSpace(inputs);
    DepthPass(objects, depthOrder, fbo, width, height, depthProgram, ls)
      + EndCommands()
      + LightingPass(objects, lightOrder, pcss, inputs, ls, depthMap, algorithm)
  }

  /**
   * The draws a frame must make: all objects into the depth target with the
   * viewport begin() left in force, then (PCSS) all objects to the screen.
   */
  function FrameDraws(objects: map<string, Object>, depthOrder: seq<string>, lightOrder: seq<string>,
                      fbo: nat, depthViewport: Viewport, depthProgram: nat, pcss: nat,
                      inputs: FrameInputs, algorithm: ShadowAlgorithm): (r: seq<DrawEvent>)
    requires InMap(depthOrder, objects) && InMap(lightOrder, objects)
    ensures |r| == |depthOrder| + (if algorithm == Pcss then |lightOrder| else 0)
  {
    var ls := Some(MatValue(LightSpace(inputs)));
    ExpectedDraws(objects, depthOrder, fbo, depthViewport, depthProgram, ls)
      + (if algorithm == Pcss then ExpectedDraws(objects, lightOrder, 0, ScreenViewport(), pcss, ls) else [])
  }

  /** A command that leaves the target, viewport and active program alone, draws nothing and does not set program's light-space uniform. */
  predicate Keeps(c: Command, program: nat)
  {
    && !c.BindFramebuffer? && !c.SetViewport? && !c.UseProgram? && !c.DrawElements?
    && !(c.SetUniform? && c.program == program && c.name == LightSpaceUniform)
  }

  lemma {:induction false} KeepsRun(s: GlState, cmds: seq<Command>, program: nat)
    requires forall i :: 0 <= i < |cmds| ==> Keeps(cmds[i], program)
    ensures var t := Exec(s, cmds);
      && t.draws == []
      && t.final.fbo == s.fbo && t.final.viewport == s.viewport && t.final.program == s.program
      && Uniform(t.final, program, LightSpaceUniform) == Uniform(s, program, LightSpaceUniform)
    decreases |cmds|
  {
    if cmds != [] {
      KeepsRun(Step(s, cmds[0]).final, cmds[1..], program);
    }
  }

  /**
   * The depth pass draws every visited entry into the depth target with the
   * viewport begin() leaves (its own size when that fits in a GLsizei), with
   * the given transform.
   */
  lemma DepthPassRun(s: GlState, objects: map<string, Object>, order: seq<string>, fbo: nat, width: u32, height: u32,
                     depthProgram: nat, ls: Mat4)
    requires InMap(order, objects)
    ensures var t := Exec(s, DepthPass(objects, order, fbo, width, height, depthProgram, ls));
      t.draws == ExpectedDraws(objects, order, fbo, BeginViewport(s.viewport, width, height), depthProgram,
                               Some(MatValue(ls)))
  {
    var b := BeginCommands(fbo, width, height);
    var d := DepthSetup(depthProgram, ls);
    var r := DrawAll(objects, order, depthProgram);
    ExecAppend(s, b + d, r);
    ExecAppend(s, b, d);
    BeginEffect(s, fbo, width, height);
    var s1 := Exec(s, b).final;
    assert d == [d[0]] + [d[1]] + [d[2]];
    ExecAppend(s1, [d[0]] + [d[1]], [d[2]]);
    ExecAppend(s1, [d[0]], [d[1]]);
    ExecSingle(s1, d[0]);
    var s2 := Step(s1, d[0]).final;
    ExecSingle(s2, d[1]);
    var s3 := Step(s2, d[1]).final;
    ExecSingle(s3, d[2]);
    var v := BeginViewport(s.viewport, width, height);
    assert s1.fbo == fbo && s1.viewport == v;
    var s4 := Exec(s, b + d).final;
    assert s4.fbo == fbo && s4.viewport == v;
    assert s4.program == depthProgram && Uniform(s4, depthProgram, LightSpaceUniform) == Some(MatValue(ls));
    DrawAllRun(s4, objects, order, depthProgram);
  }

  lemma ActivateRun(t: GlState, program: nat)
    ensures Exec(t, [ClearColorDepth, UseProgram(program)]) == Run(t.(program := program), [])
  {
    var head := [ClearColorDepth, UseProgram(program)];
    assert head == [head[0]] + [head[1]];
    ExecAppend(t, [head[0]], [head[1]]);
    ExecSingle(t, head[0]);
    ExecSingle(t, head[1]);
  }

  lemma CameraLightUniformsKeep(pcss: nat, inputs: FrameInputs)
    ensures forall i :: 0 <= i < |CameraLightUniforms(pcss, inputs)| ==> Keeps(CameraLightUniforms(pcss, inputs)[i], pcss)
  {
    assert |LightSpaceUniform| == 15;
  }

  lemma DepthMapBindingKeeps(pcss: nat, depthMap: nat)
    ensures forall i :: 0 <= i < |DepthMapBinding(pcss, depthMap)| ==> Keeps(DepthMapBinding(pcss, depthMap)[i], pcss)
  {
    assert |LightSpaceUniform| == 15;
  }

  /** The PCSS set-up activates the PCSS shader with the light-space transform and leaves target and viewport alone. */
  lemma LightingSetupRun(t: GlState, pcss: nat, inputs: FrameInputs, ls: Mat4, depthMap: nat)
    ensures var u := Exec(t, LightingSetup(pcss, inputs, ls, depthMap));
      && u.draws == []
      && u.final.fbo == t.fbo && u.final.viewport == t.viewport && u.final.program == pcss
      && Uniform(u.final, pcss, LightSpaceUniform) == Some(MatValue(ls))
  {
    var head := [ClearColorDepth, UseProgram(pcss)];
    var q1 := CameraLightUniforms(pcss, inputs);
    var lsSet := [SetUniform(pcss, LightSpaceUniform, MatValue(ls))];
    var q2 := DepthMapBinding(pcss, depthMap);
    ExecAppend(t, (head + q1) + lsSet, q2);
    ExecAppend(t, head + q1, lsSet);
    ExecAppend(t, head, q1);
    ActivateRun(t, pcss);
    var t1 := Exec(t, head).final;
    CameraLightUniformsKeep(pcss, inputs);
    KeepsRun(t1, q1, pcss);
    var t2 := Exec(t1, q1).final;
    ExecSingle(t2, lsSet[0]);
    var t3 := Exec(t2, lsSet).final;
    DepthMapBindingKeeps(pcss, depthMap);
    KeepsRun(t3, q2, pcss);
  }

  /** The lighting pass draws every visited entry to the screen, with the same transform as the depth pass. */
  lemma LightingPassRun(t: GlState, objects: map<string, Object>, order: seq<string>, pcss: nat,
                        inputs: FrameInputs, ls: Mat4, depthMap: nat, algorithm: ShadowAlgorithm)
    requires InMap(order, objects)
    ensures var u := Exec(t, LightingPass(objects, order, pcss, inputs, ls, depthMap, algorithm));
      && u.draws == (if algorithm == Pcss then ExpectedDraws(objects, order, t.fbo, t.viewport, pcss, Some(MatValue(ls))) else [])
      && u.final.fbo == t.fbo && u.final.viewport == t.viewport
  {
    if algorithm == Pcss {
      var setup := LightingSetup(pcss, inputs, ls, depthMap);
      ExecAppend(t, setup, DrawAll(objects, order, pcss));
      LightingSetupRun(t, pcss, inputs, ls, depthMap);
      DrawAllRun(Exec(t, setup).final, objects, order, pcss);
    }
  }

  /**
   * One frame, from any prior GL state: first one draw per visited entry into
   * the depth target (its framebuffer bound, the viewport at its width and
   * height when both fit in a GLsizei and otherwise the prior one, the depth
   * shader active), then — for PCSS — one draw per visited entry into
   * the default framebuffer at the screen size with the PCSS shader; every
   * draw sees its own entry's model matrix and the one light-space transform
   * of the frame. The frame leaves the default framebuffer bound with the
   * screen viewport.
   */
  lemma FrameRun(s: GlState, objects: map<string, Object>, depthOrder: seq<string>, lightOrder: seq<string>,
                 fbo: nat, width: u32, height: u32, depthProgram: nat, pcss: nat, depthMap: nat,
                 inputs: FrameInputs, algorithm: ShadowAlgorithm)
    requires InMap(depthOrder, objects) && InMap(lightOrder, objects)
    ensures var r := Exec(s, FrameCommands(objects, depthOrder, lightOrder, fbo, width, height,
                                           depthProgram, pcss, depthMap, inputs, algorithm));
      && r.draws == FrameDraws(objects, depthOrder, lightOrder, fbo, BeginViewport(s.viewport, width, height),
                               depthProgram, pcss, inputs, algorithm)
      && r.final.fbo == 0 && r.final.viewport == ScreenViewport()
  {
    var ls := LightSpace(inputs);
    var dp := DepthPass(objects, depthOrder, fbo, width, height, depthProgram, ls) + EndCommands();
    var lp := LightingPass(objects, lightOrder, pcss, inputs, ls, depthMap, algorithm);
    ExecAppend(s, dp, lp);
    DepthPassThenEnd(s, objects, depthOrder, fbo, width, height, depthProgram, ls);
    var t := Exec(s, dp).final;
    LightingPassRun(t, objects, lightOrder, pcss, inputs, ls, depthMap, algorithm);
  }

  /** The depth pass followed by end(): its draws, and the default framebuffer and screen viewport bound again. */
  lemma DepthPassThenEnd(s: GlState, objects: map<string, Object>, order: seq<string>, fbo: nat, width: u32,
                         height: u32, depthProgram: nat, ls: Mat4)
    requires InMap(order, objects)
    ensures var t := Exec(s, DepthPass(objects, order, fbo, width, height, depthProgram, ls) + EndCommands());
      && t.draws == ExpectedDraws(objects, order, fbo, BeginViewport(s.viewport, width, height), depthProgram,
                                  Some(MatValue(ls)))
      && t.final.fbo == 0 && t.final.viewport == ScreenViewport()
  {
    var dp := DepthPass(objects, order, fbo, width, height, depthProgram, ls);
    ExecAppend(s, dp, EndCommands());
    DepthPassRun(s, objects, order, fbo, width, height, depthProgram, ls);
    EndEffect(Exec(s, dp).final);
  }

  /** A frame appended to any history: its draws are appended to the history's draws. */
  lemma FrameAfter(start: GlState, history: seq<Command>, objects: map<string, Object>, depthOrder: seq<string>,
                   lightOrder: seq<string>, fbo: nat, width: u32, height: u32, depthProgram: nat, pcss: nat,
                   depthMap: nat, inputs: FrameInputs, algorithm: ShadowAlgorithm)
    requires InMap(depthOrder, objects) && InMap(lightOrder, objects)
    ensures var r := Exec(start, history + FrameCommands(objects, depthOrder, lightOrder, fbo, width, height,
                                                         depthProgram, pcss, depthMap, inputs, algorithm));
      && r.draws == Exec(start, history).draws
                    + FrameDraws(objects, depthOrder, lightOrder, fbo,
                                 BeginViewport(Exec(start, history).final.viewport, width, height),
                                 depthProgram, pcss, inputs, algorithm)
      && r.final.fbo == 0 && r.final.viewport == ScreenViewport()
  {
    var cmds := FrameCommands(objects, depthOrder, lightOrder, fbo, width, height, depthProgram, pcss, depthMap,
                              inputs, algorithm);
    ExecAppend(start, history, cmds);
    FrameRun(Exec(start, history).final, objects, depthOrder, lightOrder, fbo, width, height, depthProgram, pcss,
             depthMap, inputs, algorithm);
  }

  /**
   * A frame issues one glDrawElements per draw it must make: one per entry
   * for the depth pass and, for PCSS, one more per entry for the lighting pass.
   */
  lemma FrameDrawCalls(objects: map<string, Object>, depthOrder: seq<string>, lightOrder: seq<string>,
                       fbo: nat, width: u32, height: u32, depthProgram: nat, pcss: nat, depthMap: nat,
                       inputs: FrameInputs, algorithm: ShadowAlgorithm)
    requires InMap(depthOrder, objects) && InMap(lightOrder, objects)
    ensures var calls := CountDraws(FrameCommands(objects, depthOrder, lightOrder, fbo, width, height,
                                                  depthProgram, pcss, depthMap, inputs, algorithm));
      && calls == |depthOrder| + (if algorithm == Pcss then |lightOrder| else 0)
      && (IsEnumeration(depthOrder, objects.Keys) && (algorithm == Pcss ==> IsEnumeration(lightOrder, objects.Keys))
          ==> calls == (if algorithm == Pcss then 2 * |objects| else |objects|))
  {
    var s := GlState(0, ScreenViewport(), 0, 0, map[]);
    var cmds := FrameCommands(objects, depthOrder, lightOrder, fbo, width, height, depthProgram, pcss, depthMap,
                              inputs, algorithm);
    var draws := FrameDraws(objects, depthOrder, lightOrder, fbo, BeginViewport(s.viewport, width, height),
                            depthProgram, pcss, inputs, algorithm);
    ExecDrawCount(s, cmds);
    FrameRun(s, objects, depthOrder, lightOrder, fbo, width, height, depthProgram, pcss, depthMap, inputs, algorithm);
    assert CountDraws(cmds) == |draws|;
    if IsEnumeration(depthOrder, objects.Keys) && (algorithm == Pcss ==> IsEnumeration(lightOrder, objects.Keys)) {
      EnumerationSize(depthOrder, objects.Keys);
      if algorithm == Pcss {
        EnumerationSize(lightOrder, objects.Keys);
      }
    }
  }

  /** framebuffer.begin(); clear; depth shader with the light-space transform; render; framebuffer.end(). */
  method DepthPassStep(gl: GlContext, scene: Scene, framebuffer: Framebuffer, depthProgram: nat, ls: Mat4)
    returns (order: seq<string>)
    requires gl.Valid()
    modifies gl
    ensures gl.Valid() && gl.start == old(gl.start) && gl.nextName == old(gl.nextName)
    ensures IsEnumeration(order, scene.objects.Keys) && InMap(order, scene.objects)
    ensures gl.trace == old(gl.trace) + (DepthPass(scene.objects, order, framebuffer.fbo, framebuffer.width,
                                                   framebuffer.height, depthProgram, ls) + EndCommands())
  {
    ghost var mark := gl.trace;
    framebuffer.Begin(gl);
    DepthSetupStep(gl, depthProgram, ls);
    ghost var setUp := gl.trace;
    order := scene.Render(gl, depthProgram);
    framebuffer.End(gl);
    assert setUp == mark + (BeginCommands(framebuffer.fbo, framebuffer.width, framebuffer.height)
                            + DepthSetup(depthProgram, ls));
  }

  /** Clear the depth map, activate the depth shader and give it the light-space transform. */
  method DepthSetupStep(gl: GlContext, depthProgram: nat, ls: Mat4)
    requires gl.Valid()
    modifies gl
    ensures gl.Valid() && gl.start == old(gl.start) && gl.nextName == old(gl.nextName)
    ensures gl.trace == old(gl.trace) + DepthSetup(depthProgram, ls)
  {
    gl.Issue(ClearColorDepth);
    gl.Issue(UseProgram(depthProgram));
    gl.Issue(SetUniform(depthProgram, LightSpaceUniform, MatValue(ls)));
  }

  /** shaderPCSS.setValue for the camera position, light position and width, and camera matrices. */
  method SetCameraLightUniforms(gl: GlContext, pcss: nat, inputs: FrameInputs)
    requires gl.Valid()
    modifies gl
    ensures gl.Valid() && gl.start == old(gl.start) && gl.nextName == old(gl.nextName)
    ensures gl.trace == old(gl.trace) + CameraLightUniforms(pcss, inputs)
  {
    gl.Issue(SetUniform(pcss, "cameraPos", Vec3Value(inputs.cameraPos)));
    gl.Issue(SetUniform(pcss, "light.pos", Vec3Value(inputs.lightPos)));
    gl.Issue(SetUniform(pcss, "light.lightWidth", RealValue(inputs.lightWidth)));
    gl.Issue(SetUniform(pcss, "proj", MatValue(inputs.cameraProj)));
    gl.Issue(SetUniform(pcss, "view", MatValue(inputs.cameraView)));
  }

  /** glActiveTexture(GL_TEXTURE0); glBindTexture(depthMap); shaderPCSS.setValue("DepthMap", 0). */
  method BindDepthMap(gl: GlContext, pcss: nat, depthMap: nat)
    requires gl.Valid()
    modifies gl
    ensures gl.Valid() && gl.start == old(gl.start) && gl.nextName == old(gl.nextName)
    ensures gl.trace == old(gl.trace) + DepthMapBinding(pcss, depthMap)
  {
    gl.Issue(ActiveTexture(0));
    gl.Issue(BindTexture2D(depthMap));
    gl.Issue(SetUniform(pcss, "DepthMap", IntValue(0)));
  }

  /**
   * The lighting pass: nothing for VSSM; for PCSS clear, PCSS shader with
   * camera, light and light-space uniforms and the depth map, then render.
   */
  method LightingPassStep(gl: GlContext, scene: Scene, pcss: nat, inputs: FrameInputs, ls: Mat4, depthMap: nat,
                          algorithm: ShadowAlgorithm)
    returns (order: seq<string>)
    requires gl.Valid()
    modifies gl
    ensures gl.Valid() && gl.start == old(gl.start) && gl.nextName == old(gl.nextName)
    ensures algorithm == Pcss ==> IsEnumeration(order, scene.objects.Keys)
    ensures InMap(order, scene.objects)
    ensures gl.trace == old(gl.trace) + LightingPass(scene.objects, order, pcss, inputs, ls, depthMap, algorithm)
  {
    if algorithm == Vssm {
      order := [];
      return;
    }
    ghost var mark := gl.trace;
    LightingSetupStep(gl, pcss, inputs, ls, depthMap);
    order := scene.Render(gl, pcss);
    assert gl.trace == mark + (LightingSetup(pcss, inputs, ls, depthMap) + DrawAll(scene.objects, order, pcss));
  }

  /** Clear; PCSS shader with camera, light and light-space uniforms; depth map on unit 0. */
  method LightingSetupStep(gl: GlContext, pcss: nat, inputs: FrameInputs, ls: Mat4, depthMap: nat)
    requires gl.Valid()
    modifies gl
    ensures gl.Valid() && gl.start == old(gl.start) && gl.nextName == old(gl.nextName)
    ensures gl.trace == old(gl.trace) + LightingSetup(pcss, inputs, ls, depthMap)
  {
    gl.Issue(ClearColorDepth);
    gl.Issue(UseProgram(pcss));
    SetCameraLightUniforms(gl, pcss, inputs);
    gl.Issue(SetUniform(pcss, LightSpaceUniform, MatValue(ls)));
    BindDepthMap(gl, pcss, depthMap);
  }

  /** The frame body: compute the light-space transform once, run the depth pass, then the lighting pass. */
  method Frame(gl: GlContext, scene: Scene, framebuffer: Framebuffer, depthProgram: nat, pcss: nat,
               depthMap: nat, inputs: FrameInputs, algorithm: ShadowAlgorithm)
    returns (depthOrder: seq<string>, lightOrder: seq<string>)
    requires gl.Valid()
    modifies gl
    ensures gl.Valid() && gl.start == old(gl.start) && gl.nextName == old(gl.nextName)
    ensures IsEnumeration(depthOrder, scene.objects.Keys)
    ensures algorithm == Pcss ==> IsEnumeration(lightOrder, scene.objects.Keys)
    ensures InMap(depthOrder, scene.objects) && InMap(lightOrder, scene.objects)
    ensures gl.trace == old(gl.trace) + FrameCommands(scene.objects, depthOrder, lightOrder, framebuffer.fbo,
                                                      framebuffer.width, framebuffer.height, depthProgram, pcss,
                                                      depthMap, inputs, algorithm)
    ensures gl.Draws() == old(gl.Draws()) + FrameDraws(scene.objects, depthOrder, lightOrder, framebuffer.fbo,
                                                       BeginViewport(old(gl.state).viewport, framebuffer.width,
                                                                     framebuffer.height),
                                                       depthProgram, pcss, inputs, algorithm)
    ensures gl.state.fbo == 0 && gl.state.viewport == ScreenViewport()
  {
    var ls := MatMul(inputs.lightProj, inputs.lightView);
    ghost var mark := gl.trace;
    depthOrder := DepthPassStep(gl, scene, framebuffer, depthProgram, ls);
    lightOrder := LightingPassStep(gl, scene, pcss, inputs, ls, depthMap, algorithm);
    ghost var dp := DepthPass(scene.objects, depthOrder, framebuffer.fbo, framebuffer.width, framebuffer.height,
                              depthProgram, ls);
    ghost var lp := LightingPass(scene.objects, lightOrder, pcss, inputs, ls, depthMap, algorithm);
    assert gl.trace == mark + (dp + EndCommands() + lp);
    FrameAfter(gl.start, mark, scene.objects, depthOrder, lightOrder, framebuffer.fbo, framebuffer.width,
               framebuffer.height, depthProgram, pcss, depthMap, inputs, algorithm);
  }
}
