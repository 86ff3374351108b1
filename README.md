# OpenGL demo core, modelled in Dafny

This project models the sequential logic of a small Python/OpenGL demo in
Dafny and proves properties of that model. The demo draws a mesh loaded from
a Wavefront OBJ file and three coloured point-light markers, all seen through
a first-person camera; it also builds a textured cube entity, which it never
draws. The modelled logic is:

- the OBJ mesh loader, `OBJModel.loadMesh`;
- the two constant cube tables and the `vertex_count` of every model;
- the camera's pose, its first-person rotation and movement, and the uniforms
  it sends each frame;
- the entity's cached model matrix, and the uniforms the directional and
  point lights send each frame;
- the frame timer's sliding window of frame rates.

Nothing on the GPU, the clock or trigonometry is computed.

- **Matrices are terms.** A matrix is the glm expression that built it
  (`Transforms.Mat`: rotate, translate, scale, perspective, lookAt and
  products). So the composition order is a checkable fact. Rotations,
  translations and scales also have a point semantics. Sine and cosine are
  passed in as a `Trig` value.
- **The backend is a call log.** It is a `Graphics.GLContext` whose `calls`
  field each operation appends to. `Graphics.Resolve` pairs every uniform
  write with the program that is active when the write is made, which is
  what glUseProgram state decides.
- **Clock readings are parameters.** Each `time.time()` call of the timer is
  one argument.
- **OBJ lines arrive already split.** Each line is its leading token plus its
  fields. A field carries the two ways the loader reads it:
  - `float(field)`, or None when the text is not a number;
  - the parts of `field.split("/")`, each read by `int`, or None for a part
    that is not an integer.

  Text that is neither, such as `x`, is `Field(None, [None])`. The load
  error is the Python exception that would end the load:
  - `MalformedField` is the ValueError of a `float` or `int` that cannot read
    its text;
  - `IndexOutOfRange` is the IndexError of a reference outside its list, or
    of a face field with fewer than three parts.

  A face field's parts are read in source order: parse, look up, then the
  next part. So `f 9/x/1` with fewer than nine `v` lines fails with
  `IndexOutOfRange` before `x` is read (`ObjMesh.OutOfRangeBeforeMalformed`).

Module layout, one file each:

| file | module |
|---|---|
| `wrappers.dfy` | `Wrappers` (Option, Result) |
| `transforms.dfy` | `Transforms` |
| `graphics.dfy` | `Graphics` |
| `obj_mesh.dfy` | `ObjMesh` |
| `cube_meshes.dfy` | `CubeMeshes` |
| `models.dfy` | `Models` |
| `cameras.dfy` | `Cameras` |
| `entities.dfy` | `Entities` |
| `timers.dfy` | `Timers` |

Points where the model follows the code rather than its comments or the
obvious reading:

- **Composition order.** The entity transform is
  `rotation @ translate(position) @ scale` (entities.py:33), and the rotation
  is `yaw @ pitch @ roll`. The translation is therefore rotated as well.
  Take an entity at (1, 0, 0) with orientation (0, 90, 0) and scale 2. It maps
  the local point (1, 0, 0) to (0, 0, -3), not to the (1, 0, -2) that a
  translate-outermost transform would give. `Transforms.YawedEntityExample`
  proves this.
- **Camera angles.** camera.py:15 calls the orientation (yaw, pitch, roll).
  The code uses x as pitch and y as yaw (camera.py:30-31, 51), and the model
  does the same.
- **Point-light ambient.** The ambient colour is the light colour times 0.15
  (entities.py:88).
- **Face references.** They are made 0-based and read with Python list
  indexing. A reference of 0 reads the LAST entry, and -1 reads the one
  before it (`ObjMesh.LookupNonPositiveCountsFromEnd`). A reference r <= 0
  fails only when the list holds fewer than 1 - r entries: 0 fails on an
  empty list, -1 on a list of one entry (`ObjMesh.LookupFails`).

## Model

| member | source | states |
|---|---|---|
| Transforms.ModelTransformFactors | entities.py:23-34 | the model matrix is yaw, pitch, roll, translate(position), scale(s, s, s), outermost first: rotation outside the translation |
| Transforms.RotationMapsPoint | entities.py:24-27 | the rotation term turns a point by roll about Z, then pitch about X, then yaw about Y |
| Transforms.ModelTransformMapsPoint | entities.py:23-34 | a local point is scaled, then moved by the position, then rolled, pitched and yawed |
| Transforms.ZeroTurnFixes | entities.py:24-27 | a rotation by an angle with sine 0 and cosine 1 leaves a point fixed |
| Transforms.QuarterTurnAboutY | entities.py:25 | a quarter turn about Y sends (x, y, z) to (z, y, -x) |
| Transforms.QuarterYawedEntity | entities.py:23-34 | with yaw 90 and no pitch or roll, the model matrix sends p to the scaled and translated point turned a quarter about Y |
| Transforms.YawedEntityExample | entities.py:23-34 | position (1,0,0), orientation (0,90,0), scale 2 sends (1,0,0) to (0,0,-3) |
| Transforms.RotateYPreservesLengths | camera.py:55 | a rotation about Y keeps the height and, when sin²+cos²=1, the horizontal length |
| ObjMesh.Numbers | models.py:128-145 | an attribute line succeeds iff every field reads as a float, yields those numbers in order, and otherwise fails with the ValueError kind |
| ObjMesh.Lookup | models.py:158-164 | a successful lookup returns an entry of the list |
| ObjMesh.LookupIsOneBased | models.py:158-164 | reference r in 1..n reads entry r-1 |
| ObjMesh.LookupZeroTakesLast | models.py:158-164 | reference 0 reads the last entry instead of failing |
| ObjMesh.LookupNonPositiveCountsFromEnd | models.py:158-164 | a reference r with 1-n <= r <= 0 reads entry n+r-1, counting from the end |
| ObjMesh.LookupFails | models.py:158-164 | a lookup fails iff r > n or r < 1-n |
| ObjMesh.Component | models.py:158-163 | one part of a face field: a missing part is an IndexError, a non-integer part a ValueError, and an integer part succeeds iff it resolves, returning an entry of its list |
| ObjMesh.CollectFace | models.py:155-164 | a face succeeds iff the position, texture and normal parts of every field resolve in v, vt and vn; its corners are those lookups, in field order, in three aligned lists |
| ObjMesh.CollectFaceFailurePersists | models.py:155-164 | the first failing field decides the face's error; later fields are never consulted |
| ObjMesh.FirstFailingPartDecides | models.py:155-164 | within the first failing field, the first of position, texture and normal to fail decides the face's error |
| ObjMesh.OutOfRangeBeforeMalformed | models.py:159-161 | `f 9/x/1` with fewer than nine `v` lines fails with IndexOutOfRange before `x` is parsed |
| ObjMesh.CollectFaceVertices | models.py:155-164 | the per-field loop computes exactly CollectFace, errors included |
| ObjMesh.FanOrder | models.py:167-176 | the fan has 3·t indices for t > 0 triangles, none otherwise, each at most t+1 |
| ObjMesh.FanOrderAt | models.py:173-176 | triangle i of the fan is (0, i+1, i+2) |
| ObjMesh.FanOrderOfQuad | models.py:169-172 | the quad 0,1,2,3 unpacks to 0,1,2,0,2,3 |
| ObjMesh.FanFitsFace | models.py:167-178 | a face of n >= 3 corners gives n-2 triangles (fewer corners: none), and every fan index is below n |
| ObjMesh.BuildVertexOrder | models.py:167-176 | the vertex_order loop builds exactly the fan, also for n < 2 corners |
| ObjMesh.EmitLayout | models.py:177-183 | with 8-number corners, group k of 8 output numbers is the position, texture and normal of corner order[k] |
| ObjMesh.AppendFace | models.py:177-183 | the append loop leaves what was emitted before untouched and adds the fan corners' data in fan order |
| ObjMesh.LoadMesh | models.py:113-186 | the loader loop computes the line-by-line specification Load, errors included |
| ObjMesh.OtherLinesIgnored | models.py:125-146 | a line whose token is not v, vt, vn or f changes nothing |
| ObjMesh.RunSplit | models.py:125-184 | lines are processed in file order; a failure aborts everything after it |
| ObjMesh.RunExtends | models.py:123-184 | the attribute lists and the output only grow: nothing emitted is changed later |
| ObjMesh.RunCollects | models.py:128-145 | after a load, v, vt and vn hold exactly the numbers of the v, vt and vn lines, in file order |
| ObjMesh.FaceSeesEarlierLines | models.py:123-184 | the face on line k is resolved against the attribute lines before k only |
| ObjMesh.RunLength | models.py:146-183 | with 3/2/3 numbers per v/vt/vn line, each face of n >= 3 fields adds 24·(n-2) numbers |
| ObjMesh.LoadVertexCount | models.py:177-183 | a well-shaped file loads to 24 numbers per triangle, so len // 8 is 3 per triangle |
| CubeMeshes.PackTextured | models.py:195-243 | packing textured rows gives 8 numbers per row; where each row lands is stated by PackTexturedAt |
| CubeMeshes.PackColored | models.py:268-316 | packing coloured rows gives 6 numbers per row; where each row lands is stated by PackColoredAt |
| CubeMeshes.PackTexturedAt | models.py:194-243 | packed numbers 8k to 8k+7 are row k's x, y, z, s, t, nx, ny, nz, the layout the textured cube declares |
| CubeMeshes.PackColoredAt | models.py:267-316 | packed numbers 6k to 6k+5 are row k's x, y, z, r, g, b |
| CubeMeshes.PackColoredColors | models.py:268-316 | numbers 3-5 of every packed coloured row are its colour |
| CubeMeshes.TexturedTableSize | models.py:195-243 | the textured table holds 36 rows, 288 numbers packed |
| CubeMeshes.ColoredTableSize | models.py:268-316 | the coloured table holds 36 rows, 216 numbers packed |
| CubeMeshes.ColoredTableColor | models.py:268-316 | every row of the coloured table carries the colour (r, g, b) |
| CubeMeshes.ColoredCubeColors | models.py:268-316 | in the packed coloured table every vertex's numbers 3-5 are r, g, b |
| Models.WholeVertices | models.py:245 | data of n whole vertices of the layout's stride has vertex_count n |
| Models.TexturedCube | models.py:191-245 | the textured cube has the 8-number layout, its material and shader, 288 numbers and vertex_count 36 |
| Models.ColoredCube | models.py:266-317 | the coloured cube has the 6-number layout, no material, 216 numbers, vertex_count 36, and colour r, g, b in every vertex |
| Models.OpenObjModel | models.py:87-93 | construction succeeds iff the load does, with the loaded data; vertex_count is 3 per triangle for a well-shaped file |
| Models.DrawCalls | models.py:16-34 | a draw is 4 calls for a textured model (material bound first) and 3 for the coloured cube, ending with a draw of vertex_count vertices |
| Models.DrawWritesModelMatrix | models.py:16-22 | a draw writes one uniform, "model", equal to the given transform, on the model's own program whatever was active before |
| Models.Draw | models.py:32-34 | the draw makes exactly the calls DrawCalls lists |
| Cameras.ClampPitch | camera.py:52 | the pitch is in [-90, 90]; an in-range pitch is kept; beyond the limits it saturates at ±90 |
| Cameras.ProjView | camera.py:41 | projView is the projection applied after the look-at matrix |
| Cameras.ViewMatrixAims | camera.py:30-39 | the look-at eye is the position, the target is the position plus the rotated forward (0,0,-1), up is the rotated (0,1,0) |
| Cameras.LevelGaze | camera.py:30-39 | with no pitch and roll the camera looks at (-sin yaw, 0, -cos yaw) with up (0,1,0) |
| Cameras.CameraCalls | camera.py:43-46 | update makes 3 calls per shader |
| Cameras.CameraWritesLand | camera.py:43-46 | each shader, in list order, gets "projView" then "viewPos" = position while active; an empty list writes nothing |
| Cameras.MoveDelta | camera.py:55 | the move displacement's y is `vertical`, whatever the yaw |
| Cameras.MoveKeepsHorizontalSpeed | camera.py:54-56 | the horizontal length of a move is that of (sideways, forwards), whatever the yaw |
| Cameras.MoveForwardFollowsGaze | camera.py:54-56 | moving forwards goes along the gaze of a level camera with the same yaw |
| Cameras.Camera.constructor | camera.py:13-17 | the pose is as given and the projection is the perspective of fov, aspect, near, far |
| Cameras.Camera.Rotate | camera.py:19-22 | the three deltas are added to pitch, yaw and roll; position and projection are unchanged |
| Cameras.Camera.Translate | camera.py:24-27 | the three deltas are added to the position; orientation and projection are unchanged |
| Cameras.Camera.Update | camera.py:29-46 | the call log grows by exactly CameraCalls of the current projView and position, and the camera is unchanged |
| Cameras.Camera.FpsRotate | camera.py:50-52 | pitch becomes the clamped sum with `vertical`, yaw grows by `horizontal` unclamped, roll and position are kept, and pitch ends in [-90, 90] |
| Cameras.Camera.Move | camera.py:54-56 | the position moves by MoveDelta of the old yaw only; orientation and projection are kept |
| Entities.Entity.constructor | entities.py:9-21 | the cached matrix is the model matrix of the initial pose |
| Entities.Entity.CalculateTransformMatrix | entities.py:23-34 | the matrix of the current pose factors as yaw, pitch, roll, translate, scale |
| Entities.Entity.Update | entities.py:36-37 | the base update changes nothing |
| Entities.Entity.UpdateTransform | entities.py:39-40 | the cached matrix becomes that of the current pose; the pose is kept |
| Entities.Entity.Draw | entities.py:42-43 | the model is drawn with the cached matrix, not a recomputed one, and the entity is unchanged |
| Entities.DirLightCalls | entities.py:57-64 | the directional light activates its shader, then makes four uniform writes |
| Entities.DirLightWritesLand | entities.py:57-64 | exactly direction, ambient, diffuse, specular are written, in order, with the constructor values, on the light's shader |
| Entities.DirLight.constructor | entities.py:50-55 | the light keeps the shader and the four vectors given |
| Entities.DirLight.Update | entities.py:57-64 | the call log grows by exactly DirLightCalls of the light's values |
| Entities.NatToString | entities.py:82 | a natural prints as at least one decimal digit, and as one digit iff it is below 10 |
| Entities.IntToString | entities.py:82 | an int prints with a leading minus iff negative, and never contains ']' |
| Entities.NatToStringValue | entities.py:82 | the digits printed for n spell n in decimal, with no leading zero: Python's `str` of a natural |
| Entities.IntToStringValue | entities.py:82 | the printed index, read back as a signed decimal, is the index |
| Entities.IntToStringInjective | entities.py:82 | different indices print differently |
| Entities.SplitAtBracket | entities.py:82-90 | a `]`-free index part followed by `]` can be split off a uniform name in only one way |
| Entities.UniformNameInjective | entities.py:82-90 | a name pointLights[i].f determines both i and f |
| Entities.PointLightWrites | entities.py:82-90 | a point light writes seven uniforms |
| Entities.PointLightWritesLand | entities.py:68-90 | the seven writes land on the light shader, named pointLights[i].position, constant, linear, quadratic, ambient, diffuse, specular in order, with position, 1.0, 0.0, 0.0, color·0.15, color, color |
| Entities.PointLightNamesDistinct | entities.py:82-90 | no two lights and no two fields of one light write the same uniform |
| Entities.PointLight.constructor | entities.py:72-77 | the marker is a fresh entity holding a coloured cube on shaders[0], at the position, orientation (0,0,0), scale 0.2, with a current matrix; the light shader is shaders[1] |
| Entities.PointLight.Update | entities.py:79-90 | the call log grows by activating the light shader and then PointLightWrites of the marker's current position |
| Entities.PointLight.Draw | entities.py:42-43 | a point light draws its marker with the marker's cached matrix |
| Timers.Push | timer.py:27-30 | the sample is appended at the back and, over 50, the oldest is dropped: the result is the newest suffix of at most 50 |
| Timers.Slide | timer.py:27-30 | a window of 1..50 samples stays within 1..50; a zero interval records nothing; any other leaves the newest 50 of the window followed by 1/dt |
| Timers.WindowAfter | timer.py:9-30 | from [0], the window always holds between 1 and 50 samples |
| Timers.NewestOfNewest | timer.py:27-30 | pushing onto the newest 50 of a history and trimming to 50 leaves the newest 50 of the longer history |
| Timers.WindowIsRecentSamples | timer.py:9-30 | the window is the last 50 of 0 followed by every recorded rate, oldest first |
| Timers.MinOfIsElement | timer.py:34-35 | the least sample bounding the mean from below is itself a sample of the window |
| Timers.MaxOfIsElement | timer.py:34-35 | the greatest sample bounding the mean from above is itself a sample of the window |
| Timers.Mean | timer.py:34-35 | the mean times the count is the sum, and it lies between the minimum and the maximum |
| Timers.Timer.constructor | timer.py:5-9 | the window starts as [0] and prev_time as the second reading |
| Timers.Timer.Tick | timer.py:24-32 | dt is the first reading minus the previous prev_time; prev_time becomes the second reading; the window slides by dt, stays within 1..50, and is the newest 50 of 0 followed by the rates of every tick so far |
| Timers.Timer.GetFps | timer.py:34-35 | the fps is the mean of the window, between its minimum and maximum; the window is never empty |

## Left out

- GL resources are not modelled. This covers VAO/VBO creation, vertex
  attribute pointers, textures, `destroy`, `Triangle`, `TexturedQuad`,
  materials, shaders and post-processing: they only call OpenGL.
  `glBindVertexArray` plus `glDrawArrays` is one `DrawTriangles` call.
  A material is a number, and so is a shader program.
- File I/O, float parsing and splitting in `loadMesh` are not modelled. Lines
  arrive as a token plus fields. The cut at the first space (`line.find(" ")`)
  and the `replace`/`split` text handling are outside the model.
- The innermost `for x in ...: vertices.append(x)` loops of `loadMesh` are
  written as sequence concatenation, one per attribute.
- Matrix numerics, trigonometry and 32-bit float rounding are not modelled.
  Matrices are terms, reals are exact, and sine and cosine are caller-supplied
  functions of degrees.
- main.py (events, input, the render loop) is not part of this model.
- FPS_Camera is not a subclass. Its `rotate` and `move` are
  `Camera.FpsRotate` and `Camera.Move`.
- PointLight holds its marker `Entity` as `body` instead of inheriting from
  it.
- The uniform setter names used (`setVec3`, `setFloat`, `setMat4`) differ
  from those shader.py defines. Writes are modelled as (name, value) entries
  of the call log.
- Entities.PointLight.constructor: requires two shaders; with fewer the
  original raises IndexError, which the model does not reproduce.
- Timers.Timer.Tick: models `tick()` without a frame cap. The busy-wait of
  timer.py:12-22 depends on the wall clock. `time` and `unprocessed` are only
  set by the constructor.
- ObjMesh.LoadVertexCount: states the vertex count only for files whose v, vt
  and vn lines carry 3, 2 and 3 numbers, the layout the GPU is told to read.
  Other files load, and the model computes their data, but no count is stated
  for them.
