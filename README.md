# Per-frame text geometry batching of sdl-ttf-gpu-sample, in Dafny

The sample renders SDL_ttf text through SDL_GPU. Each frame, SDL_ttf returns a
linked list of atlas draw sequences. The program then does four things:

- It flattens the list into two fixed-capacity host arrays: vertices, each tinted and given z = 0, and indices, copied unchanged and still node-relative.
- It copies both arrays into one transfer buffer: vertices at offset 0, indices at `sizeof(Vertex) * MAX_VERTEX_COUNT`.
- It uploads both regions to offset 0 of the device vertex and index buffers.
- It issues one indexed draw per node. Each draw uses running index and vertex offsets, so the node-relative indices resolve against the shared buffers.

At the end of the frame both counts go back to zero.

The project models that pipeline and proves:

- the flattener appends exactly each node's vertices and indices, in list order, and touches nothing else;
- the host buffer never exceeds its capacity;
- the two staged regions are disjoint and lie inside the transfer buffer;
- staging then uploading is a byte-level round trip;
- the k-th draw uses node k's texture and index count, with prefix-sum offsets;
- every index a draw reads resolves to the vertex of its own node.

Modules, one per component:

- `Types`: Vertex, Vec2/Vec3, colour, and the draw-sequence node. Floats and C `int`s are kept as 32-bit patterns, because this code only copies them.
- `Layout`: the capacities (4000 vertices, 6000 indices), `sizeof(Vertex)` = 36, the staging regions and the two uploads.
- `Memory`: a block write into a larger buffer (memcpy).
- `Encoding`: the bytes memcpy copies, as four-byte little-endian words, and decoding them back.
- `Geometry`: GeometryData as a class over two arrays, proved against the pure functions `QueuedSequence`, `QueuedText` and `Cleared`.
- `Staging`: the transfer buffer and the device buffers (class `Context`), `set_geometry_data` and `transfer_data`.
- `Dispatch`: the draw loop's offset bookkeeping.
- `Frame`: one iteration of the frame loop, plus the two-node and empty-list scenarios.

The source does not check capacity. Its callers must keep every append within the buffer, or it writes past the end of the arrays. The model states that obligation as preconditions. A hardened version would reject an overflowing sequence; the code does not, so the model follows the code.

## Model

| member | source | states |
|---|---|---|
| `Layout.VertexStagingRegion` | src/main.cpp:197-198 | the vertex bytes start at offset 0 and end within `sizeof(Vertex) * MAX_VERTEX_COUNT` exactly when the vertex count is within capacity, hence within the transfer buffer |
| `Layout.IndexStagingRegion` | src/main.cpp:199-200 | the index bytes start where the full vertex region ends, and lie inside the transfer buffer of size `sizeof(Vertex)*MAX_VERTEX_COUNT + sizeof(int)*MAX_INDEX_COUNT` exactly when the index count is within capacity |
| `Layout.StagingRegionsDisjoint` | src/main.cpp:193-203 | the two staged regions overlap only if the vertex count exceeds capacity while indices are staged |
| `Layout.VertexUpload` | src/main.cpp:208-216 | the vertex upload reads exactly the staged vertex region and writes offset 0 of the vertex buffer, inside it exactly when the count is within capacity |
| `Layout.IndexUpload` | src/main.cpp:217-226 | the index upload reads exactly the staged index region and writes offset 0 of the index buffer, inside it exactly when the count is within capacity |
| `Memory.CopyInto` | src/main.cpp:179-180 | SDL_memcpy: the destination equals its old contents with the block written at the offset, every other element unchanged |
| `Memory.OverwriteTwice` | src/main.cpp:186-191 | two back-to-back appends are one append of the concatenation, which is why queue_text's per-node appends are contiguous |
| `Encoding.EncodeVertex` | src/main.cpp:49-53 | a Vertex occupies `sizeof(Vertex)` = 36 bytes and decodes back to itself |
| `Encoding.VerticesRoundTrip` | src/main.cpp:197-198 | the bytes of a vertex array decode back to the same vertices |
| `Encoding.WordsRoundTrip` | src/main.cpp:199-200 | the bytes of an int (or float) array decode back to the same values |
| `Geometry.FlatVertices` | src/main.cpp:186-191 | the flattened vertices of a list are as long as the sum of its `num_vertices` |
| `Geometry.FlatIndices` | src/main.cpp:186-191 | the flattened indices of a list are as long as the sum of its `num_indices` |
| `Geometry.TotalsOfPrefix` | src/main.cpp:186-191 | the nodes before position k contribute no more vertices or indices than the whole list, so every append of queue_text fits when the whole list does |
| `Geometry.FlatVerticesAt` | src/main.cpp:169-176 | vertex i of node k lands right after the vertices of nodes 0..k-1 |
| `Geometry.FlatIndicesAt` | src/main.cpp:179-180 | index j of node k lands, unchanged, right after the indices of nodes 0..k-1 |
| `Geometry.QueuedSequence` | src/main.cpp:166-184 | appending one node keeps the buffer within capacity; the counts grow by exactly `num_vertices` and `num_indices`; vertex i is `((xy[i].x, xy[i].y, 0), colour, uv[i])`; index j is the node's index j unchanged; every entry below the old counts or at or beyond the new ones is untouched |
| `Geometry.QueuedText` | src/main.cpp:186-191 | appending a list keeps the buffer within capacity; the counts grow by the list's totals; both arrays hold the nodes' blocks in list order from the old counts on, and are unchanged elsewhere; an empty list changes nothing |
| `Geometry.QueuedIntoEmpty` | src/main.cpp:483-484 | flattening into an empty buffer puts the whole flattened list at the front of both arrays |
| `Geometry.Cleared` | src/main.cpp:494-495 | the reset sets both counts to 0 and leaves both arrays as they were |
| `Geometry.ClearedIdempotent` | src/main.cpp:494-495 | resetting twice equals resetting once, and the reset keeps the buffer valid |
| `Geometry.GeometryData.constructor` | src/main.cpp:416-420 | both arrays are allocated at full capacity and zero-filled (calloc), and the counts are 0 |
| `Geometry.GeometryData.QueueTextSequence` | src/main.cpp:166-184 | the vertex loop and the index memcpy leave the buffer in exactly the state `QueuedSequence` describes |
| `Geometry.GeometryData.QueueText` | src/main.cpp:186-191 | the walk over the list leaves the buffer in exactly the state `QueuedText` describes |
| `Geometry.GeometryData.Reset` | src/main.cpp:494-495 | the frame-end reset leaves the buffer in exactly the state `Cleared` describes |
| `Staging.UploadRoundTrip` | src/main.cpp:193-228 | the encoded host vertices and indices, once written at offset 0 of a device buffer, decode back from its first `sizeof(Vertex) * vertex_count` and `sizeof(int) * index_count` bytes to the host's filled vertices and indices |
| `Staging.UploadToBuffer` | src/main.cpp:215-216 | SDL_UploadToGPUBuffer: the destination region receives the source bytes and nothing else in the destination changes |
| `Staging.Context.constructor` | src/main.cpp:388-404 | the vertex, index and transfer buffers have the sizes main creates them with and are distinct |
| `Staging.Context.SetGeometryData` | src/main.cpp:193-203 | the transfer buffer gets the vertex bytes at 0 and the index bytes at the fixed offset, both readable afterwards; the host buffer is untouched |
| `Staging.Context.TransferData` | src/main.cpp:205-228 | each device buffer receives, at offset 0, exactly the staged bytes of its region; the transfer buffer and the host buffer are untouched |
| `Staging.Context.Upload` | src/main.cpp:486-490 | after set_geometry_data and transfer_data: the device buffers decode to the host's filled vertices and indices; the transfer buffer holds the staged bytes of both regions and is otherwise as it was; each device buffer holds the encoded host data at offset 0 and every byte past it is as it was; the host buffer is untouched |
| `Dispatch.Draw` | src/main.cpp:257-269 | one draw per node in list order: the k-th has node k's atlas texture, its `num_indices`, first index = sum of `num_indices` of nodes 0..k-1, vertex offset = sum of `num_vertices` of nodes 0..k-1; the sums end at the list's totals; no swapchain texture means no draw |
| `Dispatch.DrawFetchesNodeVertex` | src/main.cpp:264-265 | for node k's draw, slot j reads the node's own index j, and adding the vertex offset lands on the node's own vertex it names |
| `Frame.RunFrame` | src/main.cpp:483-495 | one frame from an empty buffer: the decoded device buffers begin with the flattened list; the host arrays, the transfer buffer and both device buffers hold the flattened list (encoded where it is bytes) at their fixed offsets and are unchanged everywhere else; the draws are as `Draw` states and the draw loop's offsets end at the totals queue_text reached; the counts end at 0 |

## Left out

- `Geometry.GeometryData.QueueTextSequence`, `Geometry.GeometryData.QueueText`, `Geometry.QueuedSequence`, `Geometry.QueuedText`: require the appended counts to fit the capacity. The source does not check this, and past the capacity it writes outside its arrays. That is undefined behaviour in C and is not modelled.
- `Dispatch.Draw`: the other steps of `draw` are left out: swapchain acquisition (a boolean input here), render pass begin and end, pipeline, vertex, index and sampler binding, and the uniform push.
- `Staging.Context.TransferData`: the copy pass runs later on the GPU, in command-submission order. The model performs each upload as an immediate copy. Synchronisation across frames is not modelled.
- `Staging.Context.Upload`: assumes SDL_MapGPUTransferBuffer, SDL_AcquireGPUCommandBuffer and SDL_BeginGPUCopyPass succeed. In the source a null mapping is used unchecked (src/main.cpp:194-199), and a failed command buffer or copy pass is only logged by `check_error_ptr` (src/main.cpp:79-85, 206-207, 488-489) while the frame goes on to `transfer_data` and `draw`. The byte-level round trip holds only when these calls succeed.
- `Encoding.EncodeVertex`: assumes a little-endian target and the padding-free 36-byte layout of `Vertex`.
- Floats are kept as IEEE-754 bit patterns and C `int` indices as 32-bit patterns, because the batching only copies them. There is no float arithmetic.
- Counts and offsets are unbounded integers. The host counts never exceed 6000 under the capacity preconditions, so 32-bit overflow cannot arise there.
- `Dispatch.Draw`: has no capacity precondition, and its running `index_offset` and `vertex_offset`, C `int`s in the source, are unbounded here. They stay within `int` only when the list fits the buffer, as `Frame.RunFrame` requires.
- The node's `next` pointer becomes list order in a `seq`. SDL_ttf's `image_type` field is not read by this code.
- `load_shader`, window, device, pipeline and sampler creation, and `free_context`: one-time setup and teardown of foreign GPU objects.
- Matrix math, rotation, font loading, text layout, the random text mutation, the event loop and error logging: floating point, external libraries and I/O.
