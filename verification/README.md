# ShadowMapping — a verified model of the scene registry, meshes and frame protocol

ShadowMapping is a small OpenGL renderer. It keeps a scene of named objects:
a ground plane and thirty randomly placed boxes. Each frame it renders them
twice:

- into an offscreen depth target, seen from the light (the shadow map);
- to the screen with a PCSS (percentage-closer soft shadows) shader that samples that depth map.

This project models in Dafny the parts of the program whose behaviour can be
stated exactly, and proves what they promise:

- **The GL context** (`gl.dfy`, module `Gl`).
  - Every GL call the core makes is a `Command`.
  - A `GlContext` object holds the current `GlState`: the bound framebuffer, the viewport, the active program, the bound vertex array and the uniforms set per program. It also holds the trace of commands issued so far.
  - `Exec` replays a trace and returns the state it leaves and the draws it made. Each `DrawEvent` records the target, viewport, program, vertex array, index count, and the `model` and `lightSpaceTrans` uniforms that draw sees.
  - The context's invariant is that its state is what its trace leaves.
- **Objects and meshes** (`objects.dfy`, module `Objects`; `linear.dfy`, module `Linear`).
  - The `Object` record, with its GPU names, placement and index count.
  - `getModel` over real 4×4 matrices with glm's post-multiplying `translate` and `scale`.
  - The object constructor, with `count` cast to 32 bits.
  - The exact vertex and index data of `createPlane` and `createBox`.
- **The depth target** (`framebuffers.dfy`, module `Framebuffers`): the `Framebuffer` class with its constructor, `begin` and `end`, and their effect on the bound framebuffer and viewport. The constants come from `DefaultConsts.h` (`consts.dfy`).
- **The scene registry** (`scene.dfy`, module `Scenes`):
  - the `Scene` class over a `map<string, Object>`;
  - `addObj` (insert if absent);
  - `render` (bind, set `model`, draw, once per entry);
  - `clear` (release each entry).

  `std::unordered_map` iterates in an unspecified order. `Render` and `Clear` therefore pick the next entry arbitrarily and return the order they used, which is proved to list every key exactly once.
- **The driver** (`main.dfy`, module `MainLoop`):
  - the setup that registers `"plane"` and `"box_0"` … `"box_29"`;
  - the creation of the depth target at the depth-map size;
  - one frame body: the light-space transform computed once, the depth pass between `begin()` and `end()`, then the PCSS lighting pass.

The main results:

- `Scenes.RenderDrawsEachEntryOnce` and `Scenes.DrawAllRun`: `render` draws each entry exactly once, with its own count and model matrix.
- `Scenes.ClearDeletesEachEntryOnce`: `clear` releases each entry exactly once.
- `MainLoop.Setup`: the setup leaves exactly the 31 expected names.
- `MainLoop.FrameRun`: a frame performs exactly this sequence of draws, from any prior GL state:
  - every object into the depth target, with the depth shader, at (0,0,width,height) when both sides fit in a GLsizei; otherwise the prior viewport is kept;
  - then, for PCSS, every object into the default framebuffer at screen size, with the PCSS shader;
  - every draw sees the same light-space transform.
- `Framebuffers.BeginEndRestoresOnlyScreen`: `begin` followed by `end` restores the previous state exactly when that state was the default framebuffer with the screen viewport.

## Model

| member | source | states |
|---|---|---|
| Framebuffers.Framebuffer.constructor | src/Framebuffer.h:19-32 | width and height are stored as given. It takes two fresh non-zero names: the framebuffer, then the depth renderbuffer. It issues bind, renderbuffer bind, 32-bit depth storage of width×height, attach, then unbind. Afterwards the bound framebuffer is 0, nothing else in the GL state changed, and nothing was drawn. |
| Framebuffers.FramebufferCreateRun | src/Framebuffer.h:23-31 | Replaying the constructor's commands from any state binds framebuffer 0, changes nothing else and draws nothing. |
| Framebuffers.Framebuffer.Begin | src/Framebuffer.h:40-44 | Appends exactly the bind of `fbo` and glViewport(0, 0, width, height), with width and height passed as GLsizei. The new state is the old one with `fbo` bound. The viewport becomes (0,0,width,height) when both fit in a GLsizei. Otherwise GL rejects the call and the viewport stays as it was. Only the GL context may change, so width, height, fbo and depthBuffer are untouched. |
| Framebuffers.Framebuffer.End | src/Framebuffer.h:46-50 | Appends exactly the bind of 0 and the screen viewport (0,0,1440,810). The new state is the old one with those two fields replaced, whatever they were. The Framebuffer fields are untouched. |
| Framebuffers.BeginEffect | src/Framebuffer.h:40-44 | Replaying begin's commands from any state binds the target, and draws nothing. The viewport becomes the target's own size if width and height are below 2^31; otherwise it is unchanged. Nothing else changes. |
| Framebuffers.EndEffect | src/Framebuffer.h:46-50 | Replaying end's commands from any state binds 0 with the screen viewport, and draws nothing. |
| Framebuffers.BeginIdempotent | src/Framebuffer.h:42-43 | begin twice leaves the same state as begin once. |
| Framebuffers.EndIdempotent | src/Framebuffer.h:48-49 | end twice leaves the same state as end once. |
| Framebuffers.BeginEndRestoresOnlyScreen | src/Framebuffer.h:40-50 | begin then end gives back the prior state if and only if that state had framebuffer 0 and the screen viewport, because end restores fixed values. |
| Gl.GlContext.GenName | src/Framebuffer.h:23-26 | A glGen* name is non-zero and was never handed out before: names increase by one per call. The trace and state are unchanged. |
| Gl.ToGLsizei | src/Framebuffer.h:43 | A uint32_t passed as a GLsizei keeps its value below 2^31. Above that it becomes negative, congruent to it modulo 2^32, within the 32-bit signed range. |
| Gl.ExecDrawCount | src/main.cpp:52 | A trace performs exactly one draw per DrawElements command it contains. |
| Objects.DefaultObject | src/Object.h:22-31 | A default Object sits at the origin with unit scale and count 0. |
| Objects.ModelColumns | src/Object.h:65-71 | getModel's matrix has the scale on its diagonal and worldPos in its translation column. |
| Objects.ModelMapsPoint | src/Object.h:65-71 | getModel sends local point p to worldPos + scale⊙p: scale first, then translate. |
| Objects.DefaultModelIsIdentity | src/Object.h:65-71 | With worldPos 0 and scale 1, getModel is the identity matrix. |
| Objects.PlaneMesh | src/Object.h:76-88 | The plane has 4 vertices and 6 indices. Every index is below 4. Every vertex has y = 0 and normal (0,1,0), and texture coordinates 0 or 1. |
| Objects.BoxMesh | src/Object.h:93-153 | The box has 24 vertices and 36 indices, a multiple of 3. Every index names a vertex. Every texture coordinate is 0 or 1. |
| Objects.BoxFaceTriangles | src/Object.h:130-150 | Both triangles of face k use only vertices 4k..4k+3. |
| Objects.BoxFaceGeometry | src/Object.h:95-128 | The four vertices of each face share one axis-aligned unit normal. Each lies one unit out along it (position·normal = 1). Their texture coordinates are 0 or 1. |
| Objects.BoxVertexOnFace | src/Object.h:95-128 | Vertex j of face k is entry 4k + j of the box's vertex array. |
| Objects.BoxIndexOnFace | src/Object.h:130-150 | Index j of face k is entry 6k + j of the box's index array. |
| Objects.CreateObject | src/Object.h:32-51 | It takes three fresh names, for the vertex array, the vertex buffer and the index buffer. It issues bind, vertex upload and index upload. The vertex array is left bound, nothing else in the GL state changes and nothing is drawn. count is the index-list length reduced modulo 2^32, so exactly the length when that is below 2^32. The object sits at the origin with unit scale. |
| Objects.ObjectCreateRun | src/Object.h:35-50 | Replaying the constructor's three commands from any state binds its vertex array, changes nothing else and draws nothing. |
| Objects.CreatePlane | src/Object.h:74-91 | An object built from the plane mesh: count 6 and default placement. It appends the uploads of 4 vertices and 6 indices, binds the new vertex array and draws nothing. |
| Objects.CreateBox | src/Object.h:93-153 | An object built from the box mesh: count 36 and default placement. It appends the uploads of 24 vertices and 36 indices, binds the new vertex array and draws nothing. |
| Scenes.Insert | src/main.cpp:38-44 | An absent name ends up bound to the given object. A present name leaves the map unchanged, so the first writer wins. Every other key keeps its entry. The size grows by one exactly when the name was absent. |
| Scenes.Scene.constructor | src/main.cpp:34-36 | A new scene has no entries. |
| Scenes.Scene.AddObj | src/main.cpp:38-44 | The map becomes Insert(old map, name, obj). |
| Scenes.Scene.SetWorldPos | src/main.cpp:114 | `objects[name].worldPos = p`. operator[] inserts a default Object first when the name is absent. Only that entry's position changes. |
| Scenes.Scene.SetScale | src/main.cpp:115 | `objects[name].scale = s`, with the same default insertion. Only that entry's scale changes. |
| Scenes.Scene.DrawEntry | src/main.cpp:50-52 | One loop body of render: bind the entry's vertex array, set `model` to getModel, draw count indices. |
| Scenes.Scene.Render | src/main.cpp:46-54 | Returns an order listing every key exactly once. The trace grows by exactly that entry body for each key in that order. The state is what those commands leave. |
| Scenes.EntryRun | src/main.cpp:50-52 | One entry body performs exactly one draw. That draw has the entry's vertex array, count and model matrix, and the current target, viewport, program and light-space uniform. These stay unchanged. |
| Scenes.DrawAllRun | src/main.cpp:48-53 | Rendering with the program active performs exactly one draw per visited entry, in order, each with its own data, into the current target. The target, viewport, program and light-space uniform are kept. |
| Scenes.RenderDrawsEachEntryOnce | src/main.cpp:48-53 | With distinct vertex arrays, render performs one draw per entry in all, and exactly one draw uses each entry's vertex array. |
| Scenes.Scene.Clear | src/main.cpp:56-62 | Returns an order listing every key exactly once, and appends exactly one release per key. It changes only the GL context: the map and its keys are untouched. |
| Scenes.ClearDeletesEachEntryOnce | src/main.cpp:58-61 | With distinct vertex arrays, clear issues one command per entry, every one of them a release, and exactly one release of each entry's objects. |
| Scenes.ClearTwiceDeletesTwice | src/main.cpp:56-62 | With distinct vertex arrays, as written, clear is not idempotent: clearing twice releases every entry's objects twice. |
| Scenes.Scene.ClearAndEmpty | src/main.cpp:56-62 | The corrected clear: release every entry once, then leave the map empty. |
| Scenes.ClearEmptiedTwiceDeletesOnce | src/main.cpp:56-62 | With distinct vertex arrays and the corrected clear, a second clear finds no entries, so every entry is released exactly once. |
| MainLoop.NatToStringInjective | src/main.cpp:112 | Distinct numbers have distinct std::to_string spellings. |
| MainLoop.BoxNameFresh | src/main.cpp:112 | "box_i" is not the name of any earlier box, nor "plane". |
| MainLoop.BoxNamesCount | src/main.cpp:106-112 | The first n box names are n distinct strings, none of them "plane". |
| MainLoop.SceneNamesCount | src/main.cpp:98-116 | The setup's names are 31 distinct strings. |
| MainLoop.AddPlane | src/main.cpp:98-100 | Into an empty scene it registers a fresh plane object under "plane", with scale (10,10,10) and count 6. It appends exactly createPlane's commands, takes three names, leaves only the new vertex array bound and draws nothing. |
| MainLoop.AddBox | src/main.cpp:113-115 | Registers a fresh box under a new name, with the given position and scale and count 36. It appends exactly createBox's commands, takes three names, leaves only the new vertex array bound and draws nothing. |
| MainLoop.SetupStart | src/main.cpp:98-100 | The scene holding only the plane is the set-up state before any box. |
| MainLoop.SetupCommandsRun | src/main.cpp:98-116 | Replaying the set-up's commands (the plane's uploads, then those of each box in turn) draws nothing and changes only the bound vertex array, which ends as the last box's. |
| MainLoop.SetupStep | src/main.cpp:107-116 | Adding box n under "box_n" extends the set-up state by that box. Names stay distinct and vertex arrays stay distinct. |
| MainLoop.AddBoxStep | src/main.cpp:107-116 | One loop iteration appends exactly createBox's commands and draws nothing. It carries the loop invariant from n boxes to n + 1: the scene's contents and the set-up's commands so far. |
| MainLoop.AddBoxes | src/main.cpp:107-116 | The loop over the thirty boxes carries the set-up invariant from zero boxes to thirty. |
| MainLoop.SetupDone | src/main.cpp:98-116 | After thirty boxes the keys are exactly "plane" and "box_0".."box_29". |
| MainLoop.Setup | src/main.cpp:98-116 | The scene holds exactly 31 entries: "plane" and "box_0".."box_29". The plane has scale 10 and count 6. Box i sits at (8x-4, 3y, 8z-4) from its samples, with its sampled scale and count 36. All vertex arrays are fresh and distinct. The trace grows by exactly the set-up's commands, 93 names are taken, nothing is drawn, and only the last box's vertex array is left bound. |
| MainLoop.CreateDepthTarget | src/main.cpp:128 | The shadow-map target is 1024×1024, which fits in a GLsizei, so its begin() sets that viewport exactly. It takes the next two names for the framebuffer and its depth renderbuffer, appends exactly the constructor's commands and draws nothing. Afterwards framebuffer 0 is bound and nothing else in the GL state changed. Its viewport differs from the screen's. |
| MainLoop.DepthSetupStep | src/main.cpp:178-181 | Appends exactly: clear, the depth shader, `lightSpaceTrans` for that shader. |
| MainLoop.DepthPassStep | src/main.cpp:176-185 | Appends exactly begin, the depth set-up, one render of the whole scene with the depth shader, then end. The render order enumerates the keys. |
| MainLoop.SetCameraLightUniforms | src/main.cpp:194-200 | Appends exactly the camera position, light position and width, and projection and view uniforms of the PCSS shader. |
| MainLoop.BindDepthMap | src/main.cpp:203-205 | Appends exactly: texture unit 0, bind the depth map, `DepthMap` = 0. |
| MainLoop.LightingSetupStep | src/main.cpp:190-205 | Appends exactly the PCSS set-up: clear, the PCSS shader, its camera and light uniforms, `lightSpaceTrans`, the depth-map binding. |
| MainLoop.LightingPassStep | src/main.cpp:187-212 | For PCSS it appends the set-up and one render of the whole scene with the PCSS shader. For VSSM it appends nothing. |
| MainLoop.ActivateRun | src/main.cpp:190-192 | Clear then bind activates the program and draws nothing. |
| MainLoop.CameraLightUniformsKeep | src/main.cpp:194-200 | The camera and light uniforms leave the target, viewport, program and light-space uniform alone. |
| MainLoop.DepthMapBindingKeeps | src/main.cpp:203-205 | The depth-map binding leaves the target, viewport, program and light-space uniform alone. |
| MainLoop.LightingSetupRun | src/main.cpp:190-205 | The PCSS set-up draws nothing, keeps the target and viewport, and activates the PCSS shader with the given light-space transform. |
| MainLoop.DepthPassRun | src/main.cpp:176-184 | The depth pass draws each visited entry once into the depth target, with the viewport begin() leaves: its resolution when that fits in a GLsizei. Each draw uses the depth shader, the entry's own data and the frame's light-space transform. |
| MainLoop.DepthPassThenEnd | src/main.cpp:176-185 | The depth pass followed by end: its draws are exactly the depth-pass draws. Afterwards framebuffer 0 and the screen viewport are bound again. |
| MainLoop.LightingPassRun | src/main.cpp:187-212 | The PCSS pass draws each visited entry once into the current target with the PCSS shader and the same transform. The VSSM branch draws nothing. The target and viewport are kept. |
| MainLoop.FrameRun | src/main.cpp:173-207 | From any prior state, a frame's draws are exactly these, in order: all depth-pass draws into the depth target at the target's own width×height (the prior viewport if glViewport rejects that size), then, for PCSS, all lighting draws into framebuffer 0 at 1440×810. All of them see the one light-space transform. The frame ends with framebuffer 0 and the screen viewport bound. |
| MainLoop.FrameAfter | src/main.cpp:173-207 | After any earlier history, a frame's draws are appended to the history's draws. |
| MainLoop.FrameDrawCalls | src/main.cpp:173-207 | A frame issues exactly as many glDrawElements calls as it performs draws: one per entry for the depth pass, plus one per entry for PCSS. When the orders enumerate the scene that is twice the number of entries for PCSS, and the number of entries for VSSM. |
| MainLoop.Frame | src/main.cpp:173-207 | The frame body computes light projection × view once. Its trace is exactly the frame's commands, for orders that enumerate the scene. The context's draws grow by exactly FrameDraws. It ends on framebuffer 0 with the screen viewport. |

## Left out

- Floating point: glm's single-precision `float` values are modelled as exact reals. The meshes' constants are small integers, so they are exact either way. The placement arithmetic (`x * 8.0f - 4.0f`, `y * 3.0`) is exact in the model and rounded in the program.
- Camera.h and DirectionalLight.h are not part of this model. The camera's and light's position, light width, projection and view matrices come from `glm::lookAt`, `glm::perspective` and `glm::ortho`. They are inputs to a frame (`FrameInputs`).
- The camera orbit at src/main.cpp:161-170 uses the wall clock and trigonometry, and is left out. So are Timer.h, the window and context set-up, the ImGui overlay and its algorithm toggle, `glClearColor`, and `glEnable(GL_DEPTH_TEST)`. The algorithm is a parameter of a frame.
- Shader.h is not part of this model. A shader is its program name. `bind` is `UseProgram`, and `setValue` is `SetUniform` on the given program. Which GL uniform type each call uses, and shader compilation (ComputeShader.h), are left out.
- The random engine is not modelled. Setup takes the thirty position samples and thirty scale samples as parameters, with no range constraint.
- `createFramebuffer` (src/main.cpp:128) is declared in no file of this model. MainLoop.CreateDepthTarget takes it to be the Framebuffer constructor (src/Framebuffer.h:19-32) applied to the depth-map size.
- The depth texture's creation and attachment at src/main.cpp:129-145 are left out. The frame takes the texture's name as a parameter.
- The destructors of Object and Framebuffer (glDeleteBuffers, glDeleteVertexArrays, glDeleteFramebuffers) are left out. `deleteObject` is undeclared in the program and is modelled as a single release event per object.
- Leaving the destructors out hides a lifetime hazard. Object (src/Object.h:20-58) declares a destructor but no copy or move operations of its own. So `objects[name] = std::move(obj)` in addObj (src/main.cpp:42) copies the names, and the destruction of addObj's by-value parameter then releases the vertex array and buffers that the stored entry still holds. The factories' temporaries do the same. The model's GPU names stay valid after addObj.
- GL names are handed out from one counter shared by all object kinds, so names of different kinds never coincide, unlike in GL.
- Objects.CreateObject: the vertex attribute layout (glVertexAttribPointer) and the byte contents of the uploads are not modelled. Only the vertex and index counts are recorded.
- The type mismatch between `createPlane`/`createBox` (which return `unique_ptr<Object>`) and `addObj` (which takes an `Object`) is modelled as storing the Object value.
- Scenes.Scene.Render, Scenes.Scene.Clear: the iteration order of `std::unordered_map` is unspecified. Any order that lists each key once is allowed, and a frame's two passes may use different orders.
- The `GLsizei` conversion of `count` in `glDrawElements` is not modelled. The draw records the 32-bit count.
- Framebuffers.Framebuffer.Begin: GL clamps a viewport larger than the implementation's GL_MAX_VIEWPORT_DIMS to that limit. The limit is implementation-defined, so the model records any size that fits in a GLsizei as given. The negative-size rejection is modelled.
- Framebuffers.Framebuffer.constructor: the `GLsizei` conversion in `glRenderbufferStorage` is not modelled. Renderbuffer storage is not part of the modelled state, so a rejected allocation is not distinguished from a successful one.
- GPU-side effects (rasterisation, depth tests, the shaders' shadow computations) and command-queue asynchrony are outside the model. A draw is the event recorded with the state it sees.

## Findings

| source | as written | input that shows it | evidently intended | confidence | as-written member | corrected member |
|---|---|---|---|---|---|---|
| src/main.cpp:56-62 | `clear` releases every entry's GPU objects but never removes the entries, so the map keeps names whose objects are gone. | A scene with one entry cleared twice releases that entry's vertex array and buffers twice. | Release each entry once, then empty the registry, so that a second `clear` does nothing. | not executed; high that a repeated clear releases twice | Scenes.ClearTwiceDeletesTwice | Scenes.ClearEmptiedTwiceDeletesOnce |

`Scenes.Scene.Clear` models the code as written. `Scenes.Scene.ClearAndEmpty` is the corrected operation. The program calls `clear` once, at shutdown (src/main.cpp:261), so the double release needs a second call to `clear` that it does not make. The Object destructors (src/Object.h:53-58), which release the same names again when the scene is destroyed, are left out.
