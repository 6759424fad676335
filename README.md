# wgpu_dance, modelled in Dafny

wgpu_dance is a set of small wgpu/winit rendering programs built on a shared
window-application shell. Underneath the GPU and windowing glue there are four
pieces of plain logic, and this project models each of them with the GPU and the
window reduced to values:

- **Deferred resize** (`DeferredResize`). Every app records a new window size at
  once (`set_window_resized`) and has a `resize_surface_if_needed` that applies a
  recorded size to the surface, at most once. Only the load_model app calls it,
  at the start of every `render`, so that a burst of resize events during a drag
  reconfigures its surface once per frame instead of once per event. The two
  triangle programs record sizes and never apply them: no branch of their
  handlers and nothing in their `render` calls `resize_surface_if_needed`, and
  their handlers' contracts state that the surface configuration never changes.
  Each app class below keeps the real fields (`size`, `size_changed`, the
  surface configuration's width and height, a count of `Surface::configure`
  calls) and exposes them as a ghost `State()`, which its methods tie to the pure
  functions `Record` and `Apply`.
- **The window-app lifecycle** (`AppShell`, and the hand-written handlers in
  `TriangleExample` and `TriangleBin`). `WgpuAppHandler` creates the window and
  the app once on `resumed`, filters zero-size resizes, and answers a redraw with
  a fixed sequence of calls whatever `render` returns. Calls are recorded in a
  ghost trace (`Platform.CallLog`) shared by the handler, the app, the window and
  the surface, and the contracts state the exact trace each event produces.
- **`Model<V>`** (`RenderModel`): a constructor that copies vertex and index data,
  and `alloc_buffer`, which turns two absent GPU buffers into present ones holding
  the packed bytes (`bytemuck::cast_slice`, modelled in `Bytes`).
- **Buffer layouts** (`BufferLayout`, `LoadModelVertex`, `LoadModelInstance`):
  strides, offsets, format sizes and shader locations of the load_model example's
  `Vertex` and `InstanceRaw`, proved to tile one buffer element with no gap and no
  overlap, plus the flat-array indexing of `Vertex::from_mesh_index`.

`LoadModel` models the load_model example's app: its resize fields and depth
texture, a `render` that applies a pending resize before it acquires a frame, and
the 10x10 instance grid.

Things outside the program's control are parameters: the size the windowing
system gives a new window (`innerSize`), and what `Surface::get_current_texture`
answers (`acquired`). The generic app of `AppShell` is a class whose
`keyboard_input` and `render` may return anything.

The design intent is that the surface is reconfigured only when the size really
changed. The code compares a new size with the last *recorded* size, not with the
surface, so a window dragged away and back before the next frame still costs one
reconfiguration; `DeferredResize.RevertedBurstStillReconfigures` states this, and
the model follows the code.

The load_model pipeline uses the instance layout (shader locations 5 to 8) and
the vertex layout (locations 4 to 6) together, so locations 5 and 6 are each
declared by both buffers; `LoadModel.PipelineLocationsShared` states this. The
WebGPU rules for creating a render pipeline forbid two vertex attributes with
the same shader location, so this pipeline would presumably be rejected when it
is created; that validation happens inside wgpu, outside this model, and the
consequence is not proved here.

## Model

| member | source | states |
|---|---|---|
| Bytes.LeBytesRoundTrip | src/model.rs:39 | reading back the four little-endian bytes of a `u32` gives the same `u32` |
| Bytes.FromLeBytesRoundTrip | src/model.rs:39 | re-encoding the `u32` read from four bytes gives the same bytes |
| Bytes.U32Pod | src/model.rs:11 | every `u32` occupies exactly 4 bytes |
| Bytes.CastSlice | src/model.rs:34-39 | `cast_slice`: the values' bytes one after the other, `n * size` bytes for `n` values of a well-formed `size`-byte type; `CastSliceAppend`, `CastSliceChunk`, `UnpackCastSlice` and `CastSliceUnpack` prove what the bytes are |
| Bytes.CastSliceAppend | src/model.rs:34 | `cast_slice` of a concatenation is the concatenation of the two casts |
| Bytes.CastSliceChunk | src/model.rs:34 | value `i` of a cast slice occupies exactly bytes `[i * size, (i + 1) * size)` and they are its own bytes |
| Bytes.UnpackCastSlice | src/model.rs:39 | the bytes of a `u32` slice are `4 * n` long and read back as the same slice |
| Bytes.CastSliceUnpack | src/model.rs:39 | any byte sequence of length divisible by 4 is the cast of the `u32`s read from it |
| BufferLayout.VertexFormat.Size | examples/load_model/vertex.rs:26-36 | `Float32xN` occupies `4 * N` bytes (8, 12, 16) and never zero |
| BufferLayout.PackedFromTiles | examples/load_model/vertex.rs:22-38 | attributes placed end to end from `start` to `stop` are in increasing order, pairwise disjoint, inside `[start, stop)` and leave no byte uncovered |
| BufferLayout.PackedLayoutTiles | examples/load_model/instance.rs:36-61 | a layout packed from 0 to its stride tiles the stride: disjoint, within it, covering it |
| LoadModelVertex.Encode | examples/load_model/vertex.rs:5-11 | a `#[repr(C)]` vertex of eight `f32`s is 32 bytes |
| LoadModelVertex.VertexPod | examples/load_model/vertex.rs:13-14 | every `Vertex` value is cast to exactly `size_of::<Vertex>()` = 32 bytes |
| LoadModelVertex.BufferLayoutDesc | examples/load_model/vertex.rs:17-40 | stride 32, step mode per vertex, attributes packed end to end over the stride, shader locations pairwise distinct |
| LoadModelVertex.VertexLayoutTiles | examples/load_model/vertex.rs:22-38 | the attributes at offsets 0, 12 and 20 are ordered, do not overlap, and cover exactly `[0, 32)` |
| LoadModelVertex.AttributesReadFields | examples/load_model/vertex.rs:7-38 | the attributes at locations 4, 5 and 6 read exactly the bytes of `position`, `tex_coords` and `normal` |
| LoadModelVertex.DecodeEncode | examples/load_model/vertex.rs:5-14 | reading a vertex back from its 32 bytes gives the same vertex |
| LoadModelVertex.FromMeshIndex | examples/load_model/vertex.rs:44-58 | defined exactly when elements `3i+2` of positions and normals and `2i+1` of texcoords exist; position, tex_coords and normal are the slices `[3i, 3i+3)`, `[2i, 2i+2)` and `[3i, 3i+3)` |
| LoadModelVertex.GatherFlatten | examples/load_model/vertex.rs:46-56 | building vertices `0..n` and flattening each attribute gives back the first `3n` positions, `2n` texture coordinates and `3n` normals: the groups are consecutive and disjoint |
| LoadModelInstance.Encode | examples/load_model/instance.rs:20-24 | an `InstanceRaw` (a 4x4 `f32` matrix) is 64 bytes |
| LoadModelInstance.InstanceRawPod | examples/load_model/instance.rs:26-27 | every `InstanceRaw` value is cast to exactly 64 bytes |
| LoadModelInstance.BufferLayoutDesc | examples/load_model/instance.rs:29-63 | stride 64, step mode per instance, four `Float32x4` attributes at locations 5, 6, 7, 8, packed end to end, locations distinct |
| LoadModelInstance.InstanceLayoutTiles | examples/load_model/instance.rs:36-61 | the attributes at offsets 0, 16, 32, 48 tile `[0, 64)` with no gap and no overlap |
| LoadModelInstance.AttributesReadColumns | examples/load_model/instance.rs:22-61 | the attribute at location `5 + k` reads exactly the bytes of column `k` of the matrix |
| RenderModel.IndexBytes | src/model.rs:37-41 | the index buffer's bytes are `4 * n` long and read back as the indices |
| RenderModel.Model.constructor | src/model.rs:18-26 | copies vertices, indices and label; both buffers absent |
| RenderModel.Model.AllocBuffer | src/model.rs:28-45 | needs both buffers absent; afterwards both are present, labelled `label + " vertex buffer"` / `label + " index buffer"`, with usages VERTEX / INDEX and the packed vertices / indices as contents (lengths `n * size_of::<V>()` and `4 * n`); nothing else changes |
| DeferredResize.Initial | examples/load_model/main.rs:70-83 | after `new` the surface has the window's size, has been configured once, and no resize is pending |
| DeferredResize.Record | examples/load_model/main.rs:290-296 | an equal size changes nothing; a different one becomes the size and raises the flag; the surface is never touched; consistency is preserved |
| DeferredResize.Apply | examples/load_model/main.rs:299-308 | a pending resize copies the size into the configuration, configures once and clears the flag; with no resize pending nothing changes |
| DeferredResize.ApplyIdempotent | examples/triangle/main.rs:102-109 | a second `resize_surface_if_needed` changes nothing and configures nothing |
| DeferredResize.RecordAllEffect | examples/load_model/main.rs:285-296 | a burst of resizes leaves the surface alone, keeps the last size, and raises the flag exactly when some size differs from the starting one |
| DeferredResize.BurstThenFrame | examples/load_model/main.rs:285-308 | a burst followed by one frame leaves the surface at the last size, configured at most once, and exactly once when something was pending; a further frame configures nothing |
| DeferredResize.RevertedBurstStillReconfigures | examples/load_model/main.rs:290-296 | resizing away and back before a frame still costs one configure, though the surface ends as it was |
| AppShell.App.constructor | src/app.rs:17 | `new` is recorded once in the trace |
| AppShell.App.SetWindowResized | src/app.rs:18 | the call and its size are recorded |
| AppShell.App.ResizeSurfaceIfNeeded | src/app.rs:19 | the call is recorded |
| AppShell.App.KeyboardInput | src/app.rs:20 | the call and its key are recorded; the answer is unconstrained |
| AppShell.App.Render | src/app.rs:21 | the call is recorded; the result is unconstrained |
| AppShell.App.Update | src/app.rs:22 | the call is recorded |
| AppShell.WgpuAppHandler.constructor | src/app.rs:33-39 | app and window slots absent, title stored, empty trace |
| AppShell.WgpuAppHandler.PrePresentNotify | src/app.rs:41-45 | notifies the window if there is one, otherwise does nothing |
| AppShell.WgpuAppHandler.RequestRedraw | src/app.rs:47-51 | requests a redraw if there is a window, otherwise does nothing |
| AppShell.WgpuAppHandler.Resumed | src/app.rs:55-69 | with an app present nothing changes and nothing is created; otherwise a fresh window titled `title` and a fresh app on it fill both slots, trace `create_window`, `new` |
| AppShell.WgpuAppHandler.Suspended | src/app.rs:71-73 | keeps both slots |
| AppShell.WgpuAppHandler.WindowEvent | src/app.rs:75-117 | needs the app present; only `CloseRequested` exits; a zero-size resize makes no call, a nonzero one is forwarded once; a key is forwarded once; a redraw makes exactly `update`, `pre_present_notify`, `render`, `request_redraw` whatever `render` returns; other events do nothing |
| AppShell.ResumeTwice | src/app.rs:55-69 | two `resumed` signals create one window and one app, sized by the first |
| TriangleExample.WgpuApp.constructor | examples/triangle/main.rs:59-84 | surface configured once at the window's inner size, no resize pending, `new` recorded |
| TriangleExample.WgpuApp.SetWindowResized | examples/triangle/main.rs:93-99 | the new state is `Record` of the old one |
| TriangleExample.WgpuApp.ResizeSurfaceIfNeeded | examples/triangle/main.rs:102-109 | the new state is `Apply` of the old one |
| TriangleExample.WgpuApp.Render | examples/triangle/main.rs:111-147 | returns the acquisition result; presents only after a successful acquisition; app fields untouched |
| TriangleExample.WgpuApp.Update | examples/triangle/main.rs:149 | the call is recorded and nothing else happens |
| TriangleExample.WgpuAppHandler.constructor | examples/triangle/main.rs:152-155 | the app slot starts absent |
| TriangleExample.WgpuAppHandler.Resumed | examples/triangle/main.rs:158-171 | a no-op with an app present; otherwise a window titled "triangle" and an app in the initial resize state |
| TriangleExample.WgpuAppHandler.Suspended | examples/triangle/main.rs:173-175 | keeps the app |
| TriangleExample.WgpuAppHandler.WindowEvent | examples/triangle/main.rs:177-217 | only close exits; the configuration and configure count never change; a nonzero resize is recorded, a zero one changes nothing; keys are ignored; a redraw is `pre_present_notify`, `render`, `request_redraw`, with no `update` |
| TriangleBin.ClampSize | src/bin/triangle.rs:58-60 | each dimension becomes at least 1 and otherwise stays as it was |
| TriangleBin.WgpuApp.constructor | src/bin/triangle.rs:58-73 | the surface is configured once at the clamped inner size, so both dimensions are at least 1 |
| TriangleBin.WgpuApp.SetWindowResized | src/bin/triangle.rs:141-147 | the new state is `Record` of the old one |
| TriangleBin.WgpuApp.ResizeSurfaceIfNeeded | src/bin/triangle.rs:149-156 | the new state is `Apply` of the old one |
| TriangleBin.WgpuApp.Render | src/bin/triangle.rs:158-195 | returns the acquisition result; after a successful acquisition exactly one draw of vertices `0..3` and instances `0..1`, then present |
| TriangleBin.WgpuApp.KeyboardInput | src/bin/triangle.rs:197-199 | never consumes the event |
| TriangleBin.WgpuApp.MouseClick | src/bin/triangle.rs:201-203 | never consumes the event |
| TriangleBin.WgpuApp.MouseWheel | src/bin/triangle.rs:205-207 | never consumes the event |
| TriangleBin.WgpuApp.CursorMove | src/bin/triangle.rs:209-211 | never consumes the event |
| TriangleBin.WgpuApp.DeviceInput | src/bin/triangle.rs:213-215 | never consumes the event |
| TriangleBin.WgpuApp.Update | src/bin/triangle.rs:217-219 | the call is recorded and nothing else happens |
| TriangleBin.WgpuAppHandler.constructor | src/bin/triangle.rs:222-225 | the app slot starts absent |
| TriangleBin.WgpuAppHandler.Resumed | src/bin/triangle.rs:228-238 | a no-op with an app present; otherwise a window titled "triangle" and an app at the clamped size |
| TriangleBin.WgpuAppHandler.Suspended | src/bin/triangle.rs:240-242 | keeps the app |
| TriangleBin.WgpuAppHandler.WindowEvent | src/bin/triangle.rs:244-291 | needs the app present; close and Escape exit, other keys do nothing; a zero-size resize changes nothing, a nonzero one is recorded; a redraw is `pre_present_notify`, `render` with its draw, `request_redraw`, whatever `render` returns; the configuration never changes |
| LoadModel.Row | examples/load_model/main.rs:178-194 | one row has `n` cells, cell `x` being `(x, z)` |
| LoadModel.Grid | examples/load_model/main.rs:176-196 | `rows` rows of ten cells give `10 * rows` cells, each with `x < 10` and `z < rows`; `GridShape` proves the order |
| LoadModel.GridShape | examples/load_model/main.rs:176-196 | in `rows` rows of ten, cell `(x, z)` is entry `10 * z + x`: z outer, x inner |
| LoadModel.InstanceGrid | examples/load_model/main.rs:176-196 | the instance list has 100 cells, each inside the 10x10 grid; `InstanceGridShape` proves the order |
| LoadModel.InstanceGridShape | examples/load_model/main.rs:176-196 | the instance list has `NUM_INSTANCES_PER_ROW`² = 100 entries in row order |
| LoadModel.TruncateU32 | examples/load_model/main.rs:273 | `as u32` keeps values below 2³² and otherwise drops a multiple of 2³² |
| LoadModel.DrawsWholeGrid | examples/load_model/main.rs:271-275 | each frame draws instances `0..100`, the whole grid |
| LoadModel.App.constructor | examples/load_model/main.rs:70-101 | surface configured once at the inner size, no resize pending, depth texture made from that configuration |
| LoadModel.App.SetWindowResized | examples/load_model/main.rs:290-296 | the new state is `Record` of the old one; the depth texture is kept |
| LoadModel.App.ResizeSurfaceIfNeeded | examples/load_model/main.rs:299-308 | the new state is `Apply` of the old one and the depth texture is recreated from the new configuration; unflagged, the depth texture is kept |
| LoadModel.App.Render | examples/load_model/main.rs:230-283 | applies any pending resize before acquiring a frame, so the flag is clear afterwards even on error; returns the acquisition result; on success draws the model for instances `0..instances.len() as u32` and presents |
| LoadModel.App.Update | examples/load_model/main.rs:314-316 | the call is recorded |
| LoadModel.PipelineBuffers | examples/load_model/main.rs:124-127 | the pipeline's two buffers are the instance layout then the vertex layout |
| LoadModel.PipelineLocationsShared | examples/load_model/main.rs:124-127 | shader locations 5 and 6 are each declared by both buffers, so the pipeline's locations are not distinct |

## Left out

- GPU bootstrap (instance, adapter, device, surface capabilities), shaders, pipeline and bind-group descriptors, command encoding and submission: foreign wgpu calls. `configure` is a counter, frame acquisition a parameter, presentation and draws entries of the trace.
- The winit event loop and window creation: `create_window` is a stand-in that returns a window with the inner size given as a parameter; its failure (`unwrap`) is not modelled.
- The tokio runtime and `pollster::block_on` that run `new` to completion: `new` is a synchronous constructor.
- The `Arc<Mutex<...>>` and `Rc<Mutex<...>>` around the app slot: events are dispatched one at a time, so the slot is a plain optional field.
- The generic handler cannot be instantiated with a concrete app (Dafny traits are not used here), so `AppShell.App` stands for every app, and the load_model app is modelled without its handler.
- load_model imports the shell as `WindowApp` / `WindowAppHandler`, while src/app.rs calls them `WgpuApp` / `WgpuAppHandler`; they are treated as the same.
- Floating-point maths: camera parameters and aspect ratio, instance positions and rotations, and `Instance::to_raw`. Floats are only copied, so an `f32` is its 32-bit pattern.
- load_model's `keyboard_input` and `update` forward to the camera controller, whose definition is not part of this model; `LoadModel.App.Update` only records the call.
- `MeshModel`, `DrawModel`, `Camera`, `CameraBuddle` and `Texture`: not part of this model. A depth texture is the configuration it was made from; `draw_model_instanced` is one trace entry.
- The instance buffer of load_model: its contents come from `Instance::to_raw`, which is floating point.
- `set_pipeline`, `set_vertex_buffer`, render-pass setup and clear colours: no trace entries.
- Logging (`log::info!`, `eprintln!`): the error branches of a redraw only log, so they are empty.
- src/resource.rs, examples/create_window.rs and examples/simple_raytracing/main.rs: file I/O, a trivial shell, and floating-point ray tracing.
- Bytes.CastSlice: assumes a little-endian target and no padding, as on the platforms wgpu targets here.
- RenderModel.Model.AllocBuffer: the length of the vertex buffer is stated under `Pod.WellFormed()` (every value has `size_of::<V>()` bytes), which the `Pod` bound guarantees in the source; the `device` argument is not modelled.
- AppShell.App.KeyboardInput: its answer is left unconstrained, as the trait promises nothing about it; the handler discards it.
- AppShell.App.Render: its result is left unconstrained; the handler's contract holds for every result.
- LoadModel.GridShape: stated for ten cells per row, the only row length the program uses.
- TriangleBin.WgpuApp.CursorMove: the cursor position (two `f64`s) and the payloads of the other input hooks are not modelled, since the hooks never read them.
