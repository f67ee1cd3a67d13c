# Host-side scene preparation and accumulation bookkeeping of a GL path tracer

This project models, in Dafny, the CPU side of a small OpenGL path tracer.

- **Triangle assembly.** `getTriangle` gathers mesh vertices and index lists. It scans running extents, divides every position by the largest extent and places it with a point transform. It then appends one triangle per index triple to a growable store, with flat or smooth normals and a copy of the material.
- **GPU encoders.**
  - The twelve-group triangle layout of the main program and the fourteen-group layout of the built-in scene. The fourteen-group layout adds the participating-medium colour and parameters.
  - The four-group hierarchy-node layout.
  - The node vector seeded with one test node before the hierarchy builder appends to it.
- **Built-in scene.**
  - The nine material constants.
  - The five model slots. Only the active ones contribute triangles, always in the order floor, bunny, sphere, loong, panther.
  - The start-up order: materials, current material, meshes, triangle count, encoding.
- **Accumulation controller.**
  - The camera's frame counter `LoopNum`. Every camera change resets it, and it advances once per frame under the iteration cap.
  - The inspector edits that restart accumulation.
  - The two accumulation framebuffers chosen by the parity of the counter.
  - The zoom and pitch clamps of the camera.
- **Material record and its UI mirror.** The default material, and the copy of a material into the static globals the editor widgets are bound to.
- **Legacy mesh-texture packer.** `getTexture` counts vertices and indices and sizes a near-square texel grid for each. It fills a stride-8 vertex buffer and a flat index buffer with running cursors.

Coordinates and colours are exact reals. Where the program updates state in place, the model keeps that form:

- the camera, the render buffer, the material panel, the triangle store, the scene globals, the texture object and the inspector state are classes;
- the loops are methods with invariants, proved against specification functions (`Assembled`, `EncodeTriangle`, `EncodeNode`, `SceneTriangles`, `Slot`, `NextLoopNum`, `HistIndex`/`CurIndex`).

Modules, one file each: `Vectors`, `Materials`, `Meshes`, `Triangles`, `Encoding`, `Scenes`, `Cameras`, `Screens`, `RenderLoop`, `ObjectTextures`.

Where the two copies of the encoding disagree, the model follows the code:

- `src/sources/main.cpp` encodes twelve groups per triangle. This is modelled by `Encoding.EncodeTriangles`.
- `src/core/Scene.h` encodes fourteen. This is modelled by `Scenes.EncodeTrianglesExt`, over a record that extends the twelve-group one.

The medium fields are assigned and encoded by `src/core/Scene.h` but not declared in `src/core/Material.h`. The model adds them to `Material`, with default 0.

The inspector defaults (max bounce 4, max iterations 1000) are the locals of `src/sources/main.cpp:285-290`. The bounce slider's upper end is the program's own `MAX_BOUNCE` of 4 (`src/sources/main.cpp:44`). `src/core/RenderSettings.h` is not part of this model: `main.cpp` does not include it, and its settings (8 and 3000) belong to a different build.

The camera's view direction `Front` is the unit vector (cos yaw cos pitch, sin pitch, sin yaw cos pitch) of the angles it was last computed from. The model keeps those two angles (`ViewYaw`, `ViewPitch`) in place of the vector. `Refresh` reads the angles back from the vector with asin and acos, and the model computes those results exactly from the two angles (`Cameras.AsinSin`, `Cameras.AcosCos`, `Cameras.RefreshedYaw`).

## Model

| member | source | states |
|---|---|---|
| Vectors.TransformPointOfOrigin | src/core/Triangle.h:79-83 | a point transform (w = 1) sends the origin to the matrix's translation column |
| Vectors.TransformPointIsAffine | src/core/Triangle.h:79-83 | the difference of two placed points is the direction transform of their difference, so placement preserves shape up to a linear map |
| Vectors.TransformPointIgnoresBottomRow | src/core/Triangle.h:80-82 | only the first three rows of the matrix reach the placed position; the fourth coordinate is dropped |
| Materials.DefaultMaterial | src/core/Material.h:17-37 | a default material has emissive (0,0,0), base colour (1,1,1), all twelve scalars 0 except IOR 1, every texture ID -1 and no medium |
| Materials.WithScalar | src/sources/main.cpp:368-432 | assigning one scalar field of a material changes that field to the new value and leaves every other scalar and every non-scalar field as it was |
| Materials.MaterialExtensionality | src/core/Material.h:17-37 | two materials are equal exactly when their non-scalar fields and all twelve scalars agree |
| Materials.WithScalarIdentity | src/sources/main.cpp:368-369 | setting a scalar changes the material if and only if the new value differs from the old one |
| Materials.MaterialPanel.constructor | src/core/Material.h:39-52 | the static globals start with base colour (1,1,1,1), emission (0,0,0), every scalar 0 and IOR 1.5 |
| Materials.MaterialPanel.SetGlobalMaterialProperty | src/core/Material.h:54-75 | afterwards the globals show the material (base colour slots 0-2, emission slots 0-2, all twelve scalars); the alpha slot baseColor[3] keeps its value |
| Materials.MaterialPanel.CopyScalars | src/core/Material.h:63-74 | each of the twelve scalar globals equals the same-named field of the material |
| Materials.MaterialPanel.SetScalar | src/sources/main.cpp:368-369 | a slider writes its own global only; the eleven other scalar globals are unchanged |
| Materials.InitialPanelIsNotDefault | src/core/Material.h:30-51 | the initial globals do not show the default material; they show it with IOR 1.5 instead of 1.0 |
| Meshes.PrefixStep | src/core/Triangle.h:49-65 | taking one more mesh appends exactly its vertices and its indices, and adds their counts |
| Meshes.CountsAreLengths | src/core/ObjectTexture.h:41-45 | the summed per-mesh sizes are the lengths of the concatenated vertex and index lists |
| Meshes.VertexBlock | src/core/ObjectTexture.h:64-78 | vertex j of mesh m sits in the concatenation at the vertex count of the earlier meshes plus j |
| Meshes.IndexBlock | src/core/ObjectTexture.h:79-83 | index j of mesh m sits in the concatenation at the index count of the earlier meshes plus j |
| Meshes.PrefixBounded | src/core/ObjectTexture.h:64-83 | the meshes up to and including m hold no more vertices or indices than all of them, so the cursors stay inside the totals |
| Triangles.ScanExtentsAsWritten | src/core/Triangle.h:53-58 | the scan as written gives the true x extremes, but its y and z accumulators end up as max/min of the final x extreme and the last position only |
| Triangles.ScanExtentsSnoc | src/core/Triangle.h:50-58 | scanning one more position is one more scan step on the accumulators |
| Triangles.BoundingExtentsContain | src/core/Triangle.h:41-47 | the per-axis scan yields a box containing every scanned position on all three axes |
| Triangles.ScanExtentsLosesEarlierY | src/core/Triangle.h:54 | for positions (0,5,0), (0,0,0) the scan as written gives maxaxis 0 (a division by zero follows) where the bounding box gives 5 |
| Triangles.AssembledCorners | src/core/Triangle.h:89-94 | triangle k's corners are the vertices named by indices 3k, 3k+1, 3k+2, each divided by the one common maxaxis and then transformed as a point |
| Triangles.AssembledFlatNormals | src/core/Triangle.h:97-101 | with flat shading the three normals are equal and are the normalised cross product of the placed edges |
| Triangles.AssembledSmoothNormals | src/core/Triangle.h:102-106 | with smooth shading each normal is the normalised mesh normal of its own index and does not depend on the placement matrix |
| Triangles.AssembledMaterial | src/core/Triangle.h:108-109 | every appended triangle carries the material argument |
| Meshes.RebasedIndices | src/core/Triangle.h:49-64 | the intended index list has one entry per gathered index |
| Meshes.RebasedBlock | src/core/Triangle.h:49-64 | in the intended list, index j of mesh m sits where it sits in the concatenation, shifted by the vertex count of the meshes before m |
| Meshes.RebasedIndicesNameOwnVertices | src/core/Triangle.h:49-64 | with the intended list, every in-range index of mesh m names that mesh's own vertex in the concatenated vertices |
| Meshes.MeshLocalIndicesAsWritten | src/core/Triangle.h:60-62 | with two one-triangle meshes, the concatenated index 0 of the second mesh names the first mesh's vertex |
| Triangles.TriangleStore.constructor | src/sources/main.cpp:127 | the triangle vector starts empty |
| Triangles.GatherMeshes | src/core/Triangle.h:49-65 | the gathered positions, normals and indices are the concatenations over all meshes in order; the accumulators equal the scan over all positions |
| Triangles.GatherVertices | src/core/Triangle.h:50-60 | the inner vertex loop extends the gathered lists by one mesh and keeps the accumulators equal to the scan |
| Triangles.ScaleVertices | src/core/Triangle.h:72-76 | every position is divided coordinate-wise by the same maxaxis, in place |
| Triangles.PlaceVertices | src/core/Triangle.h:79-83 | every position is replaced by its point transform, in place |
| Triangles.AppendFaces | src/core/Triangle.h:86-110 | the store grows by one triangle per index triple at its old end; earlier entries are unchanged and entry offset+k is face k |
| Triangles.GetTriangle | src/core/Triangle.h:34-111 | getTriangle appends exactly the assembled triangles of the meshes after the old contents, which stay unchanged |
| Encoding.NodeRoundTrip | src/sources/main.cpp:221-227 | a node is read back exactly from its four groups, and the padding coordinates are 0 |
| Encoding.TriangleRoundTrip | src/sources/main.cpp:197-216 | decoding gives back positions, normals, colours and all twelve scalars; it gives back the whole triangle exactly when the fields the layout drops are at their defaults |
| Encoding.EncodeTriangleDistinguishes | src/sources/main.cpp:210-215 | two triangles encode alike exactly when geometry, colours and all twelve scalars agree |
| Encoding.SeedNodes | src/sources/main.cpp:183-191 | the node vector is the test node (left 255, right 128, n 30) followed by the builder's nodes |
| Encoding.EncodeTriangles | src/sources/main.cpp:197-216 | the encoded vector has nTriangles entries and entry i is the encoding of triangle i |
| Encoding.EncodeNodes | src/sources/main.cpp:221-227 | the encoded vector has one entry per node, entry i encodes node i and decodes back to it |
| Encoding.EncodeScene | src/sources/main.cpp:178-228 | counts and encodes: nTriangles and nNodes equal the vector sizes, the test node is encoded first, then the builder's nodes |
| Scenes.EncodeTriangleExt | src/core/Scene.h:219-237 | the first twelve groups are exactly the twelve-group encoding; group 13 is the medium colour and group 14 is (medium type, medium density, medium anisotropy) |
| Scenes.ExtendedRoundTrip | src/core/Scene.h:221-237 | its first twelve groups are the twelve-group encoding; decoding always gives back the four medium fields, and the whole triangle exactly when its texture IDs are at their defaults |
| Scenes.EncodeTrianglesExt | src/core/Scene.h:216-238 | the encoded vector has nTriangles entries and entry i is the fourteen-group encoding of triangle i |
| Scenes.Contribution | src/core/Scene.h:116-120 | an active slot contributes indices/3 triangles, all carrying the slot's material; an inactive slot contributes none |
| Scenes.FloorComesFirst | src/core/Scene.h:113-144 | the floor's triangles come first, at the lowest indices, with the plane material; every later triangle carries the current material |
| Scenes.LoadSlot | src/core/Scene.h:116-120 | one slot appends its contribution to the triangle vector |
| Scenes.Scene.constructor | src/core/Scene.h:9-28 | the globals start default-constructed: no triangles, every slot inactive, every medium type 0 |
| Scenes.Scene.InitMaterial | src/core/Scene.h:53-109 | each of the nine materials gets its constants (`Scenes.PlaneSettings` to `Scenes.TearGlassEmissiveSettings`) over its current value, and nothing else changes; the medium type codes become 1, 1, 3 for brown glass, tear glass and emissive tear glass |
| Scenes.Scene.InitSurfaceMaterials | src/core/Scene.h:54-77 | the five opaque materials get their constants and keep their medium type |
| Scenes.Scene.InitGlassMaterials | src/core/Scene.h:79-108 | the four transmissive materials get their constants, three of them a medium |
| Scenes.Scene.InitMesh | src/core/Scene.h:111-144 | activates floor and loong, then appends the triangles of the active slots in the order floor, bunny, sphere, loong, panther |
| Scenes.Scene.EncodedBVHandTriangles | src/core/Scene.h:186-238 | the node vector is the test node then the builder's nodes; nNodes is its size; both encoded vectors are per-index encodings of the right length |
| Scenes.Scene.CountAndEncode | src/core/Scene.h:45-50 | nTriangles is set before encoding, so the encoding covers every loaded triangle |
| Scenes.Scene.LoadMaterials | src/core/Scene.h:37-40 | after the materials are set (plane and tear glass to their constants, medium codes 1, 1, 3 for the last three), the current material is tear glass (medium type 1) and the panel shows it |
| Scenes.Scene.LoadScene | src/core/Scene.h:37-43 | the materials get their constants (medium codes 1, 1, 3 for the last three), tear glass is current and shown, floor and loong are activated and the loong selected, the bunny, sphere and panther flags are kept, and the active slots' triangles are appended in order with the plane and tear-glass materials |
| Scenes.Scene.InitScene | src/core/Scene.h:35-51 | the start-up sequence ends with the materials at their constants (medium codes 1, 1, 3), tear glass current and shown, floor and loong active with the loong selected and the other flags kept, the scene triangles appended, and every one of them and every node encoded |
| Cameras.ClampZoom | src/core/Camera.h:119-123 | the zoom ends in [1, 45]; it is unchanged inside, 1 below and 45 above |
| Cameras.ClampZoomIdempotentMonotone | src/core/Camera.h:120-123 | clamping twice is clamping once, and the clamp preserves order |
| Cameras.ClampPitchAsWritten | src/core/Camera.h:107-111 | the pitch ends at most 89; it is unchanged in [-89, 89], and both above 89 and below -89 it becomes +89 |
| Cameras.ClampPitch | src/core/Camera.h:107-111 | the intended clamp into [-89, 89], each side to its own bound |
| Cameras.ClampPitchAgreement | src/core/Camera.h:110-111 | the clamp as written and the intended one agree exactly on pitches not below -89 |
| Cameras.ClampPitchFlipsDownward | src/core/Camera.h:110-111 | a pitch of -90 becomes +89 as written, -89 as intended |
| Cameras.MovedPitch | src/core/Camera.h:100-112 | the new pitch is the old one plus the scaled offset, clamped as written when constrained (so at most 89) |
| Cameras.Camera.constructor | src/core/Camera.h:49-80 | angles from the rotation vector, the view direction built from those angles, default speed, sensitivity, zoom 30 and field of view 30, and LoopNum 0 |
| Cameras.Camera.UpdateCameraVectors | src/core/Camera.h:153-165 | the view direction is rebuilt from the current yaw and pitch and LoopNum is 0; no angle, zoom or ratio changes |
| Cameras.Camera.ProcessKeyboard | src/core/Camera.h:86-98 | a key press resets LoopNum to 0 and changes nothing else that is modelled |
| Cameras.Camera.ProcessMouseMovement | src/core/Camera.h:100-116 | yaw grows by the scaled x offset; the pitch is moved and clamped as written; Rotation = (Yaw, Pitch, 0); the view direction is rebuilt from the new angles; LoopNum is 0 |
| Cameras.Camera.ProcessMouseScroll | src/core/Camera.h:118-129 | the zoom is the clamped difference, in [1, 45], and LoopNum is 0 |
| Cameras.Camera.ProcessScreenRatio | src/core/Camera.h:131-134 | the ratio times the height is the width (for a non-zero height), the view direction is rebuilt from the current angles, and LoopNum is 0 |
| Cameras.Camera.LoopIncrease | src/core/Camera.h:136-138 | LoopNum grows by exactly one; nothing else changes |
| Cameras.Camera.Refresh | src/core/Camera.h:140-150 | the pitch becomes the elevation of the view direction (the view pitch itself within [-90, 90]) and the yaw `RefreshedYaw` of the view angles; Rotation = (Yaw, Pitch, 0); LoopNum is 0; the view direction, zoom and ratio are kept |
| Cameras.Wrap | src/core/Camera.h:141-142 | an angle brought into [-180, 180), unchanged when already there |
| Cameras.AcosCos | src/core/Camera.h:142 | degrees(acos(cos a)) lies in [0, 180] and is the size of the angle on [-180, 180] |
| Cameras.AsinSin | src/core/Camera.h:141 | degrees(asin(sin a)) lies in [-90, 90] and is the angle itself there |
| Cameras.CosSign | src/core/Camera.h:142 | the sign of the cosine: 1 strictly inside (-90, 90), 0 exactly at a wrapped ±90 |
| Cameras.RefreshedYaw | src/core/Camera.h:141-142 | the yaw Refresh derives lies in [-180, 0]; for a view above or below the horizon by less than 90 degrees it is the size of the view yaw minus 180 |
| Cameras.RefreshTurnsView | src/core/Camera.h:142 | for such a view, the derived yaw points the way the view does exactly when the view yaw is -90 (up to whole turns) |
| Cameras.RefreshTurnsInitialView | src/sources/main.cpp:278 | the start-up camera's yaw -87.78 is turned to -92.22 by Refresh, a different heading |
| Cameras.IntendedYaw | src/core/Camera.h:142 | the intended yaw is the heading of the view direction, in [-180, 180) |
| Cameras.IntendedYawKeepsView | src/core/Camera.h:142 | for every pitch the clamp allows, the intended yaw has the view's heading and the elevation is the view pitch |
| Cameras.Camera.ApplyRotation | src/sources/main.cpp:344-346 | the intended rotation edit: the camera takes the edited angles and rotation and rebuilds its view from them, LoopNum 0 |
| Screens.CppRem | src/core/Screen.h:124 | C++ `%`: quotient times divisor plus remainder is the dividend, and the remainder has the dividend's sign |
| Screens.SlotsAreDistinct | src/core/Screen.h:123-126 | for LoopNum >= 0 the history and current slots are both in {0, 1}, differ, and history is 0 exactly for even LoopNum |
| Screens.WrittenThenRead | src/core/Screen.h:124-125 | the slot drawn at frame n is the history slot at frame n + 1, and the history slot repeats every two frames |
| Screens.NegativeOddCounter | src/core/Screen.h:124 | for a negative counter the history index is -1 (outside both slots) exactly when the counter is odd |
| Screens.TextureIdAsWritten | src/core/Screen.h:92-94 | the accessor returns the framebuffer handle, which equals the colour texture handle only when the two coincide |
| Screens.TextureId | src/core/Screen.h:92-94 | the intended accessor returns the colour texture handle |
| Screens.TextureIdMismatch | src/core/Screen.h:92-94 | with framebuffer 2 and texture 3, the accessor as written reports 2 where 3 is meant |
| Screens.RenderBuffer.constructor | src/core/Screen.h:146-148 | the global buffer starts with two unconfigured slots (zero handles and size) |
| Screens.RenderBuffer.Init | src/core/Screen.h:112-116 | both slots are configured at the given size and currentIndex is 0 |
| Screens.RenderBuffer.Resize | src/core/Screen.h:118-121 | both slots get the new size and keep their handles |
| Screens.RenderBuffer.SetCurrentBuffer | src/core/Screen.h:123-129 | draws into slot 1 - LoopNum % 2 and reads slot LoopNum % 2 as history; both valid and distinct |
| Screens.RenderBuffer.SetCurrentAsTexture | src/core/Screen.h:130-134 | the display passes read the slot SetCurrentBuffer drew into for the same LoopNum |
| Screens.RenderBuffer.GetCurrentTexture | src/core/Screen.h:136-140 | reports the handle of the same slot, as the accessor gives it (the framebuffer handle) |
| RenderLoop.NextLoopNum | src/sources/main.cpp:436 | the counter advances by one exactly when there is no limit (-1) or it is below the cap, and otherwise stays |
| RenderLoop.FramesWithinCap | src/sources/main.cpp:436 | k undisturbed frames add k without a limit, and add k but stop at the cap with one |
| RenderLoop.CapIsSticky | src/sources/main.cpp:436 | once the cap is reached the counter never changes again |
| RenderLoop.FirstFrameAfterEdit | src/sources/main.cpp:428-436 | since the reset precedes the advance, the first frame after an edit carries counter 1 (0 under a cap of 0) |
| RenderLoop.EditChangesOneField | src/sources/main.cpp:368-372 | a slider edit changes exactly the edited field of the current material, and changes the material if and only if the value differs |
| RenderLoop.RenderState.constructor | src/sources/main.cpp:278-290 | the state entering the render loop: the camera built at ratio 2 looking along (-87.78, -14) and then refreshed, so its rotation is (-92.22, -14, 0); both slots configured at the framebuffer size; the material shown in the panel; LoopNum 0; every switch on, max bounce 4, max iterations 1000 |
| RenderLoop.RenderState.ToggleEnvMap | src/sources/main.cpp:322-324 | the switch takes its value and LoopNum is 0; nothing else changes, camera included |
| RenderLoop.RenderState.ToggleImportantSample | src/sources/main.cpp:325-327 | the switch takes its value and LoopNum is 0; nothing else changes, camera included |
| RenderLoop.RenderState.SetMaxBounce | src/sources/main.cpp:328-330 | the bounce limit takes its value and LoopNum is 0; nothing else changes, camera included |
| RenderLoop.RenderState.SetMaxIterations | src/sources/main.cpp:334-336 | the cap takes its value and LoopNum is 0; nothing else changes, camera included |
| RenderLoop.RenderState.SetDisplayOptions | src/sources/main.cpp:353-354 | tone mapping and gamma switches change the display only: LoopNum and every render setting are kept |
| RenderLoop.RenderState.EditCameraPosition | src/sources/main.cpp:340-343 | a position edit refreshes the camera: pitch and yaw re-derived from the unchanged view direction, Rotation rebuilt from them, LoopNum 0, nothing else changed |
| RenderLoop.RenderState.EditCameraRotation | src/sources/main.cpp:344-347 | a rotation edit refreshes the camera the same way, so the rotation ends as the re-derived angles and an edit with positive yaw or non-zero roll never survives |
| RenderLoop.RenderState.EditCameraZoom | src/sources/main.cpp:348-351 | the zoom slider's value is taken as is, then the camera refreshes: angles re-derived from the view direction, Rotation rebuilt, LoopNum 0, nothing else changed |
| RenderLoop.RenderState.KeyPress | src/sources/main.cpp:527-534 | a movement key resets LoopNum and changes nothing else that is modelled |
| RenderLoop.RenderState.MouseLook | src/sources/main.cpp:568-569 | mouse look with the pitch constrained: the yaw grows by the scaled offset, the pitch is the moved and clamped one (at most 89), Rotation and the view direction follow the new angles, LoopNum is 0, nothing else changes |
| RenderLoop.RenderState.WindowResized | src/sources/main.cpp:545-548 | the camera takes the new ratio and rebuilds its view from its current angles, both slots take the new size and keep their handles, LoopNum is 0, and angles, zoom and settings are kept |
| RenderLoop.RenderState.EditBaseColor | src/sources/main.cpp:363-367 | the material's base colour becomes the first three components written, the alpha stays in the panel, LoopNum is 0, and the settings and the camera pose are kept |
| RenderLoop.RenderState.EditEmissive | src/sources/main.cpp:398-402 | the material's emission becomes the colour written, LoopNum is 0, and the settings and the camera pose are kept |
| RenderLoop.RenderState.EditScalar | src/sources/main.cpp:368-432 | a scalar slider changes exactly that field of the current material, the panel still shows it, LoopNum is 0, and the settings and the camera pose are kept |
| RenderLoop.RenderState.Advance | src/sources/main.cpp:436-439 | the counter follows the capped advance rule; the frame is drawn into one slot reading the other as history, and the display reads the slot drawn |
| ObjectTextures.CeilSqrt | src/core/ObjectTexture.h:50-51 | the column count is the least r with r*r >= n, positive for positive n |
| ObjectTextures.CeilSqrtFrom | src/core/ObjectTexture.h:50-51 | the upward search ends at the ceiling square root |
| ObjectTextures.SquareMonotone | src/core/ObjectTexture.h:50-51 | squares keep the order of naturals |
| ObjectTextures.CeilSqrtUnique | src/core/ObjectTexture.h:50-51 | the ceiling square root is unique |
| ObjectTextures.CeilSqrtOfSquare | src/core/ObjectTexture.h:50-51 | a perfect square gives back its root |
| ObjectTextures.CeilDiv | src/core/ObjectTexture.h:52 | the row count is the least r with r*d >= n |
| ObjectTextures.GridFits | src/core/ObjectTexture.h:50-61 | for n > 0 the grid has columns, holds all n records, is no taller than wide and wastes less than one row, so every write fits the allocation |
| ObjectTextures.RecordRoundTrip | src/core/ObjectTexture.h:66-75 | a vertex is read back exactly from its record |
| ObjectTextures.CountSizes | src/core/ObjectTexture.h:41-45 | the totals are the sums of the meshes' vertex and index counts |
| ObjectTextures.WriteRecord | src/core/ObjectTexture.h:66-77 | record v fills slots 8v..8v+7 with the scaled position (y lowered by 0.2), the normal and the texture coordinates; no other slot changes |
| ObjectTextures.PackArrays | src/core/ObjectTexture.h:60-84 | after the loops v_index and f_index are the totals, record r holds vertex r of the concatenation, and faceArray[0..f) is the concatenated index list |
| ObjectTextures.PackMeshVertices | src/core/ObjectTexture.h:65-78 | mesh m's records follow those of the meshes before it |
| ObjectTextures.PackMeshIndices | src/core/ObjectTexture.h:79-83 | mesh m's indices follow those of the meshes before it |
| ObjectTextures.DebugReadsAsWritten | src/core/ObjectTexture.h:86-89 | the debug loop reads face positions 0 to 23 unconditionally |
| ObjectTextures.DebugReadOverrunsSmallMesh | src/core/ObjectTexture.h:86-89 | one triangle (3 indices) gives a 2 x 2 face grid, and the debug loop reads position 4 beyond it |
| ObjectTextures.DebugReads | src/core/ObjectTexture.h:86-89 | the bounded debug loop reads min(24, cells) positions, all inside the buffer |
| ObjectTextures.DebugReadsAgree | src/core/ObjectTexture.h:86-89 | the loop as written stays in bounds, and equals the bounded one, if and only if the buffer has at least 24 cells |
| ObjectTextures.ObjectTexture.constructor | src/core/ObjectTexture.h:17-21 | a texture object starts with both data sizes 0 |
| ObjectTextures.GetTexture | src/core/ObjectTexture.h:40-121 | the upload sizes are 8*cols x rows and cols x rows of the grid; the buffers hold every vertex record and every index in order; objTex ends with the totals and the new handles |

## Left out

- OpenGL calls: buffer, texture and framebuffer creation, binding, upload and drawing. Shader uniforms and `ObjectTexture::setTex` are GL calls too. The model stops at the CPU-side arrays, and the handles GL generates are parameters.
- ImGui widgets, GLFW input and the time step. Each widget or callback is reduced to the event it raises and its new value.
- `src/core/Shader.h`, `src/core/Utility.h`, the model loader, the HDR loader (`InitHdrEnvMap`) and `SaveFrame` are not part of this model.
  - Loaded meshes and the placement matrices built by `getTransformMatrix` are inputs (`Scenes.PlacedModel`).
- The hierarchy builder `buildBVHwithSAH` is not part of this model. The nodes it appends are an input (`built`). The triangle reordering it performs is not modelled.
- `RefreshTriangleMaterial` is not part of this model. After a material edit the model updates `current_material` and the counter, but not the triangles or their encoding.
- The camera's trigonometry is not modelled:
  - the direction vectors Right and Up, and Front as a vector (it is kept as the two angles it was built from);
  - halfH, halfW and the image-plane corner;
  - the position update of `ProcessKeyboard`;
  - sin, cos, asin and acos themselves: the view direction is represented by the two angles it was built from (see above).
- Vector normalisation needs a square root. It is a parameter `normalize` of triangle assembly, so no property depends on it.
- Floating-point rounding is not modelled; coordinates, colours and parameters are exact reals.
  - `sqrtf` and `ceilf` in `getTexture` are taken exactly: integer ceiling square root and ceiling division.
  - An IEEE division by zero (maxaxis 0, window height 0) gives an infinity or NaN. The model's `Vectors.Quot` gives 0 there.
- 32-bit integer overflow of `LoopNum`, `dataSize_v`, `dataSize_f` and the buffer sizes is not modelled; integers are unbounded.
- Unsigned GL handles (`GLuint`) are `nat`.
- ObjectTextures.GetTexture: requires a positive vertex and index count. With none, the source computes 0/0 for the row count.
- ObjectTextures.PackArrays: the buffer slots past the written ones are left unspecified, as `new float[]` leaves them. The model fills them with 0.
- Triangles.GetTriangle: requires whole index triples with every index in range. The source reads out of bounds otherwise.
- Triangles.AppendFaces: the same requirement.
- RenderLoop.RenderState.EditEmissive: the emission editor is a four-component colour editor over a three-element array, so its fourth write falls outside the array. That out-of-bounds write is not modelled; the model writes three components.
- RenderLoop.RenderState.EditCameraPosition: the camera position is not part of the model, so the edited position is not stated. Only the re-derived angles, the rotation and the counter are.
- Cameras.RefreshedYaw: at a view pitch of exactly ±90 degrees the source divides 0 by 0 and gets NaN. The model takes the quotient as 0, as `Vectors.Quot` does, which gives the yaw -90.
- ObjectTextures.GetTexture: the debug print loop of `src/core/ObjectTexture.h:86-89` is not part of its body. Its reads are modelled separately (`ObjectTextures.DebugReadsAsWritten`, `ObjectTextures.DebugReads`) and listed under Findings.
- The scroll callback is empty in the program (its body is commented out), so `Cameras.Camera.ProcessMouseScroll` has no caller in the render loop.
- The globals `nodes_prt`, `nodes_encoded_ptr` and `triangles_encoded_ptr` keep the addresses of local vectors after `EncodedBVHandTriangles` returns. The model stores the encoded vectors themselves in the scene.
- The test node's `index` field is never assigned by the source. The model takes it as 0.
- `GameObject` slots default to inactive. The program also records each slot's first triangle index (`triangleIndex`) from a `getTriangle` that returns `void`; that assignment does not compile and is not modelled.
- The key handlers use `UP`/`DOWN` movements that the camera's movement enum does not declare. Only the four declared movements are modelled.

## Findings

| source | as written | input that shows it | evidently intended | confidence | as-written member | corrected member |
|---|---|---|---|---|---|---|
| src/core/Triangle.h:54-58 | maxy/maxz are recomputed from the new maxx, and miny/minz from the new minx, instead of from their own previous values | positions (0,5,0) then (0,0,0): maxy ends 0 and maxaxis is 0, so the normalisation divides by zero | each accumulator folds over its own axis (maxaxis 5) | not executed | Triangles.ScanExtentsLosesEarlierY | Triangles.BoundingExtentsContain |
| src/core/Camera.h:110-111 | a pitch below -89 is set to +89 | pitch -90 becomes +89: the camera flips from looking down to looking up | a pitch below -89 is set to -89 | not executed | Cameras.ClampPitchFlipsDownward | Cameras.ClampPitchAgreement |
| src/core/Screen.h:92-94 | GetTextureColorBufferId returns the framebuffer handle | framebuffer 2 with colour texture 3 reports 2 | return the colour texture handle | not executed | Screens.TextureIdMismatch | Screens.TextureId |
| src/core/ObjectTexture.h:86-89 | the debug loop prints faceArray[0..24) whatever the buffer size | one triangle: 3 indices, a 2 x 2 face buffer, and reads at positions 4 to 23 | read at most min(24, face_x*face_y) positions | not executed | ObjectTextures.DebugReadOverrunsSmallMesh | ObjectTextures.DebugReadsAgree |
| src/core/Camera.h:142 | Refresh takes the yaw as acos(Front.x / cos(Pitch)) - 180, which always lies in [-180, 0] and mirrors the view's heading about -90 | the start-up camera (yaw -87.78, pitch -14) gets yaw -92.22; the next mouse movement or resize rebuilds the view from it, turning the view by 4.44 degrees | the heading of the view direction itself (atan2 of its z and x components) | not executed | Cameras.RefreshTurnsView | Cameras.IntendedYawKeepsView |
| src/sources/main.cpp:344-346 | the edited rotation is stored, then Refresh rebuilds the rotation from the view direction, which the edit did not change | an edited rotation (30, 0, 0) ends as the re-derived angles, for example (-92.22, -14, 0) at start-up | the camera takes the edited angles and rebuilds its view from them | not executed | RenderLoop.RenderState.EditCameraRotation | Cameras.Camera.ApplyRotation |
| src/core/Triangle.h:60-62 | each mesh's indices are appended unchanged, although the vertices of all meshes are concatenated | two one-triangle meshes: the second mesh's index 0 names the first mesh's vertex | shift each mesh's indices by the number of vertices gathered before it | not executed | Meshes.MeshLocalIndicesAsWritten | Meshes.RebasedIndicesNameOwnVertices |
