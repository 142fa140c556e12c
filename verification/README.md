# MTRenderer: a Dafny model of the renderer's bookkeeping

MTRenderer is a small Direct3D 12 renderer with two threads. The main thread
advances the scene actors and commits them to scene proxies. The render
thread walks a ring of frame slots: it waits on a slot's fence, presents,
submits the slot's command list and records the next slot from the proxies.

This project models the sequential state behind that, with every GPU, window
and thread call replaced by its effect on the state:

- `Scene` (scene.dfy): actors and proxies, and the `Commit` that copies an
  actor's data into its proxy. Floats stay as their IEEE 754 bit patterns.
  Matrices are symbolic terms recording how DirectXMath would build them.
- `Flags` (flags.dfy): the `UINT` flag word and the `GlobalFlag` bits.
- `Frames` (frames.dfy): `FrameData`, the 510-entry constant buffer and the
  command queue. The queue is modelled as the log of what was enqueued on it.
  A slot's fence value is the last value signalled on it in that log.
- `Packing` (packing.dfy): what `Render` derives from the proxy list. That is
  the first camera, the instance array of world matrices and the recorded
  command list.
- `Renderer` (renderer.dfy): the `MTRenderer` class and its invariant
  `Valid()`. The invariant covers:
  - every slot in use agrees with its fence;
  - fence signals never decrease;
  - proxy `i` has actor `i`'s kind, and no proxy object sits in two slots.

  `MainThreadStep` is one pass of the main thread's loop.
  `RenderThreadStep` is one pass of the render thread's loop.

## Model

| member | source | states |
|---|---|---|
| Scene.ToLong | MTRenderer/source/MTRenderer.cpp:183-184 | a screen size stored in a `LONG` rectangle field is in range, equal to the size modulo 2^32, and unchanged below 2^31 |
| Scene.WorldMatrixOf | MTRenderer/source/MTRenderer.cpp:144-153 | the world matrix is (scale × rotation in degrees) × translation, built from the actor's own vectors |
| Scene.CameraCommitOf | MTRenderer/source/MTRenderer.cpp:171-191 | a camera commit gives a full-screen viewport and scissor rectangle from the origin, and a transposed view and projection using the actor's field of view, screen size and the 0.01/1000 depth planes |
| Scene.CommitOf | MTRenderer/source/MTRenderer.cpp:144-191 | a commit produces data of the proxy's own kind: the triangle world matrix or the camera data |
| Scene.SceneActor.TriangleActor | MTRenderer/source/MTRenderer.cpp:13-38 | a new triangle actor has kind Triangle, the base translation, rotation and scale, and both speeds 1 and both angles 0 |
| Scene.SceneActor.CameraActor | MTRenderer/source/MTRenderer.cpp:67-80 | a new camera actor has kind Camera, translation (0,0,-5,1), a zero screen size and field of view, and eye, at and up (0,0,0), (0,0,1), (0,1,0) |
| Scene.SceneActor.SetRotSpeed | MTRenderer/source/MTRenderer.h:55-62 | afterwards `GetRotSpeed` returns the value set, and no other actor field changes |
| Scene.SceneActor.SetScaleSpeed | MTRenderer/source/MTRenderer.h:65-72 | afterwards `GetScaleSpeed` returns the value set, and no other actor field changes |
| Scene.SceneActor.GetRotSpeed | MTRenderer/source/MTRenderer.h:60-62 | the triangle's current rotation speed, as last set by `SetRotSpeed` or the constructor |
| Scene.SceneActor.GetScaleSpeed | MTRenderer/source/MTRenderer.h:70-72 | the triangle's current scale speed, as last set by `SetScaleSpeed` or the constructor |
| Scene.Step | MTRenderer/source/MTRenderer.cpp:46-102 | after one update a triangle's rotation about z equals its new rotation angle, and a camera's eye sits at its translation |
| Scene.SceneActor.Init | MTRenderer/source/MTRenderer.cpp:105-111 | the camera records the screen size and field of view, changes nothing else, and reports success |
| Scene.StepWrites | MTRenderer/source/MTRenderer.cpp:46-102 | one update of a triangle writes only its two angles, the z component of its rotation (set to the rotation angle) and a uniform scale with w = 0; one update of a camera sets its eye to its translation and writes only eye, forward point and up vector; neither writes the translation, speeds, screen size or field of view |
| Scene.AdvancedKeepsSettings | MTRenderer/source/MTRenderer.cpp:46-102 | any number of updates keeps the translation, the speeds, the screen size and the field of view, so the speed getters keep returning the last value set |
| Scene.SceneActor.Update | MTRenderer/source/MTRenderer.cpp:46-102 | the actor's new state is one per-kind update step from its old state |
| Scene.SceneProxy.constructor | MTRenderer/source/MTRenderer.cpp:117-121 | a new proxy has the requested kind and holds no committed data yet |
| Scene.SceneProxy.Snapshot | MTRenderer/source/MTRenderer.h:117-135 | the data a proxy exposes is laid out for its own fixed kind |
| Scene.SceneProxy.GetWorldMatrix | MTRenderer/source/MTRenderer.h:144-146 | the target array entry receives the world matrix, and no other entry changes |
| Scene.SceneProxy.GetActorType | MTRenderer/source/MTRenderer.h:123-125 | the reported kind is the kind of the data the proxy holds |
| Scene.SceneProxy.Commit | MTRenderer/source/MTRenderer.cpp:144-191 | after a commit from an actor of the same kind, the proxy holds that actor's committed data |
| Flags.BitIndex | MTRenderer/source/MTRenderer.h:199-201 | every flag occupies a bit of the 32-bit word |
| Flags.Mask | MTRenderer/source/MTRenderer.h:199-201 | a flag's mask is the single bit at its index; `TerminateRenderer` is bit 0 |
| Flags.WithFlag | MTRenderer/source/MTRenderer.cpp:353-355 | setting turns the flag's bit on and keeps every other bit |
| Flags.WithoutFlag | MTRenderer/source/MTRenderer.cpp:358-360 | clearing turns the flag's bit off and keeps every other bit |
| Flags.IsSet | MTRenderer/source/MTRenderer.cpp:363-365 | a flag tests true exactly when its bit is on |
| Flags.SetClearTest | MTRenderer/source/MTRenderer.cpp:353-365 | a flag tests true after it is set and false after it is cleared |
| Frames.NextIndex | MTRenderer/source/MTRenderer.cpp:1067 | the next slot is always below the slot count; it is the index plus one, wrapping to 0 after the last slot |
| Frames.AfterSync | MTRenderer/source/MTRenderer.cpp:1027-1038 | after the sync no signal is outstanding and the list is kept; an outstanding slot's target rises by exactly 1; a slot with nothing outstanding is unchanged |
| Frames.AfterSyncConsistent | MTRenderer/source/MTRenderer.cpp:1037-1038 | a slot that agrees with its fence still agrees after the sync, and its new target is above the fence's value |
| Frames.Submission | MTRenderer/source/MTRenderer.cpp:1053-1063 | at most one operation: the slot's own recorded list, enqueued exactly when a signal is outstanding on the slot |
| Frames.LastSignal | MTRenderer/source/MTRenderer.cpp:878 | a fence's value is 0, as created, or a value that was signalled on that fence |
| Frames.LastSignalAppend | MTRenderer/source/MTRenderer.cpp:1166 | enqueueing one operation changes a fence's value only if it is a signal on that fence, and then to the signalled value |
| Frames.SignalsBoundedByLast | MTRenderer/source/MTRenderer.cpp:1166 | under monotone signalling, every signal ever sent to a fence is at most the fence's current value |
| Frames.MonotoneSignalsPairwise | MTRenderer/source/MTRenderer.cpp:1037 | under monotone signalling, a later signal on a fence never carries a smaller value than an earlier one |
| Frames.SignalKeepsMonotone | MTRenderer/source/MTRenderer.cpp:1166-1167 | a signal no smaller than the fence's value keeps signalling monotone, sets that fence to the value, and leaves every other fence alone |
| Frames.NonSignalKeepsMonotone | MTRenderer/source/MTRenderer.cpp:1046-1062 | presents and executions keep signalling monotone and change no fence value |
| Frames.SceneConstantBuffer.constructor | MTRenderer/source/MTRenderer.h:314-318 | a constant buffer holds exactly 510 world-matrix entries |
| Packing.TriangleCount | MTRenderer/source/MTRenderer.cpp:1127-1135 | the instance count never exceeds the number of proxies |
| Packing.TriangleCountZero | MTRenderer/source/MTRenderer.cpp:1140 | the instance count is zero exactly when no proxy is a Triangle |
| Packing.InstanceWorlds | MTRenderer/source/MTRenderer.cpp:1127-1135 | the packed world matrices are exactly as many as the Triangle proxies |
| Packing.InstanceWorldsAt | MTRenderer/source/MTRenderer.cpp:1131-1133 | the Triangle proxy at position i is packed at the index equal to the number of Triangle proxies before it, so list order is kept |
| Packing.InstanceWorldsFrom | MTRenderer/source/MTRenderer.cpp:1128-1134 | every entry of the instance array holds the matrix of the Triangle proxy with exactly that many Triangles before it, so no entry is left unfilled |
| Packing.InstanceWorldsStep | MTRenderer/source/MTRenderer.cpp:1128-1134 | one more proxy adds one instance, its world matrix at the end, exactly when it is a Triangle |
| Packing.TriangleCountGrows | MTRenderer/source/MTRenderer.cpp:1131-1133 | a Triangle proxy's index in the instance array is below the final instance count, so each write lands inside what is counted |
| Packing.FirstCamera | MTRenderer/source/MTRenderer.cpp:1091-1102 | the chosen proxy is a Camera and no Camera comes before it; there is none exactly when no proxy is a Camera |
| Packing.CameraCommands | MTRenderer/source/MTRenderer.cpp:1091-1101 | only viewport and scissor commands, and none exactly when no proxy is a Camera |
| Packing.BindCommands | MTRenderer/source/MTRenderer.cpp:1076-1083 | the constant-buffer binding names the slot being recorded, and nothing here draws or sets a viewport |
| Packing.ClearCommands | MTRenderer/source/MTRenderer.cpp:1104-1124 | the slot's back buffer is first moved from present to render-target state, and the last command clears it to the clear colour |
| Packing.DrawCommands | MTRenderer/source/MTRenderer.cpp:1140-1147 | the draw commands are present exactly when there is an instance, and the draw is of 3 vertices per instance with the given instance count |
| Packing.RecordFrame | MTRenderer/source/MTRenderer.cpp:1076-1163 | every recorded command list is non-empty |
| Packing.RecordFrameMembers | MTRenderer/source/MTRenderer.cpp:1076-1160 | a command is in the recorded list exactly when it is in one of its segments: bind, camera, clear, draw or final barrier |
| Packing.RecordFrameCameraOnly | MTRenderer/source/MTRenderer.cpp:1091-1101 | every viewport or scissor command in the recorded list comes from the camera segment |
| Packing.RecordFrameDraws | MTRenderer/source/MTRenderer.cpp:1140-1147 | the list draws exactly when some proxy is a Triangle, and every draw covers all Triangle proxies as instances of one 3-vertex triangle |
| Packing.RecordFrameViewport | MTRenderer/source/MTRenderer.cpp:1091-1101 | the list sets a viewport exactly when some proxy is a Camera, and every viewport and scissor it sets is the first Camera's |
| Renderer.MTRenderer.NextSlot | MTRenderer/source/MTRenderer.cpp:1067 | the slot `Render` records into is below the slot count |
| Renderer.MTRenderer.constructor | MTRenderer/source/MTRenderer.cpp:221-235 | the default canvas size and zeroed flags and indices; every slot has its `FrameData()` defaults (fence target 0, nothing outstanding); empty actor and proxy lists; the default camera actor starts at (0, 0, -5) looking along +z with up +y and the default triangle actor at the origin with unit scale and unit speeds; the invariant holds |
| Renderer.MTRenderer.Init | MTRenderer/source/MTRenderer.cpp:248-310 | records canvas and slot count; each slot in use gets fence target 1 and the rest keep their defaults; the default camera gets the canvas size and 90 degrees; the default triangle gets speeds 1 and 0.5; both are appended; the invariant holds |
| Renderer.MTRenderer.InitFences | MTRenderer/source/MTRenderer.cpp:883 | each slot below the slot count has fence target 1, nothing else in it changes, and slots above keep everything |
| Renderer.MTRenderer.AddDefaultActors | MTRenderer/source/MTRenderer.cpp:300-307 | camera initialised and appended, then triangle speeds set and triangle appended, in that order |
| Renderer.MTRenderer.Deinit | MTRenderer/source/MTRenderer.cpp:313-334 | the terminate flag is set, the fence event is closed, and every proxy slot is nulled with the list length kept |
| Renderer.MTRenderer.SetFlag | MTRenderer/source/MTRenderer.cpp:353-355 | the flag word becomes the old word with the flag set |
| Renderer.MTRenderer.ClearFlag | MTRenderer/source/MTRenderer.cpp:358-360 | the flag word becomes the old word with the flag cleared |
| Renderer.MTRenderer.TestFlag | MTRenderer/source/MTRenderer.cpp:363-365 | answers whether the flag's bit is on in the word, changing nothing |
| Renderer.MTRenderer.AddSceneActor | MTRenderer/source/MTRenderer.cpp:368-374 | a null actor leaves the list unchanged; any other is appended at the end with earlier entries untouched |
| Renderer.MTRenderer.Update | MTRenderer/source/MTRenderer.cpp:937-941 | every listed actor ends up advanced once per occurrence in the list, counting aliased entries |
| Renderer.MTRenderer.GrowSceneProxies | MTRenderer/source/MTRenderer.cpp:958-977 | afterwards the proxy list is as long as the actor list, existing proxies are kept in place, and each new proxy is fresh with its actor's kind |
| Renderer.MTRenderer.CommitEach | MTRenderer/source/MTRenderer.cpp:979-982 | every proxy holds the data committed from the actor at the same index |
| Renderer.MTRenderer.CommitSceneProxy | MTRenderer/source/MTRenderer.cpp:957-983 | one proxy per actor, old proxies kept, each proxy of its actor's kind and holding its actor's committed data |
| Renderer.MTRenderer.SyncGPU | MTRenderer/source/MTRenderer.cpp:1024-1039 | touches only the current slot; with no signal outstanding nothing changes; otherwise it waits only if the fence is behind the target (the fence's last signal), raises the target by exactly 1 and clears the flag |
| Renderer.MTRenderer.Present | MTRenderer/source/MTRenderer.cpp:1042-1050 | presents the current buffer, takes the reported index, and changes no fence value |
| Renderer.MTRenderer.PopulateCommandList | MTRenderer/source/MTRenderer.cpp:1053-1063 | submits the current slot's list exactly when its signal is outstanding; no fence value, slot or index changes |
| Renderer.MTRenderer.BindCamera | MTRenderer/source/MTRenderer.cpp:1091-1102 | the viewport, scissor and both matrices come from the first Camera proxy only; with no camera the buffer keeps its old matrices |
| Renderer.MTRenderer.PackInstances | MTRenderer/source/MTRenderer.cpp:1127-1135 | the count is the number of Triangle proxies; their world matrices fill entries 0 to count-1 in list order; later entries are untouched |
| Renderer.MTRenderer.PackProxy | MTRenderer/source/MTRenderer.cpp:1129-1134 | a Triangle proxy appends its world matrix at the count and the count grows by one; any other proxy changes nothing |
| Renderer.MTRenderer.RecordCommands | MTRenderer/source/MTRenderer.cpp:1076-1160 | the recorded commands are the frame's list for the proxies, and the constant buffer holds the first camera's matrices and the packed instances |
| Renderer.MTRenderer.SignalFrame | MTRenderer/source/MTRenderer.cpp:1166-1167 | the slot's fence is signalled with its unchanged target, its signal is marked outstanding, its list is kept, and other slots are untouched |
| Renderer.MTRenderer.Render | MTRenderer/source/MTRenderer.cpp:1066-1168 | records slot (index+1) mod count from the proxies; fills that slot's constant buffer; signals that slot's target, leaving it unchanged; sets its flag; leaves every other slot alone; the invariant holds |
| Renderer.MTRenderer.MainThreadStep | MTRenderer/source/MTRenderer.cpp:409-428 | with the terminate flag set, no actor or proxy changes; otherwise every actor advances once per occurrence in the list, then there is one proxy per actor holding that actor's updated data, the earlier proxies are kept in order and the appended ones are new |
| Renderer.MTRenderer.Flip | MTRenderer/source/MTRenderer.cpp:456-462 | the current slot gets its sync and the other slots are unchanged; the queue receives the present of the old buffer, then the reported slot's list if it has a signal outstanding; the index becomes the reported one; no fence target goes down |
| Renderer.MTRenderer.RenderFrame | MTRenderer/source/MTRenderer.cpp:456-465 | after syncing the current slot: the queue receives the present, the new current slot's list if outstanding, and the signal of the next slot at its target; the next slot holds the list recorded from the proxies with its signal outstanding; its constant buffer holds the first camera's matrices and the packed instances; all other slots and all other constant buffers are untouched |
| Renderer.MTRenderer.RenderThreadStep | MTRenderer/source/MTRenderer.cpp:447-478 | with the terminate flag set, only the current slot's sync happens and the queue, the index and the constant buffers are unchanged; otherwise the full frame of `RenderFrame` happens; fence targets never decrease |

## Left out

- The window, its class registration and the message loop of `Run` are Win32 I/O and are not modelled.
- The threads, their mutex and condition-variable handshake, and `SetThreadName` are concurrency plumbing. Each thread's loop body is modelled as one sequential method (`MainThreadStep`, `RenderThreadStep`).
- `PreUpdate` and `PreRender` are empty and have no counterpart.
- The frame time `delta` is measured with `std::chrono::system_clock` around each pass of the main loop, and is 0 on the first pass. The model takes it as the parameter `delta` of `MainThreadStep` and does not model the clock.
- Device, swap-chain, heap, root-signature, pipeline, vertex-buffer and shader creation are foreign calls and are not modelled. Only the fence initialisation of `InitResources` is modelled. Of `InitDevices`, only the back-buffer index the swap chain reports is kept, as a parameter of `Init`.
- Renderer.MTRenderer.Init: only the success path is modelled; the failure returns of window and device creation are not. The window title is ignored. The slot count is required to be 1 to 3, because `frameDataArray` has three entries and the source does not check.
- Renderer.MTRenderer.constructor: the three slots' constant buffers are allocated here. The source creates them in `InitResources`. The window and instance handles are not modelled.
- Scene.SceneActor.Update: the single-precision results of an update (the wrapped angles, the sine-based scale factor, the rotated forward point and up vector) come from the parameter `advance`. The model fixes which fields are written but not their values; the `while (360.0f < rotAngle)` wrap is part of that float math and is not modelled.
- Scene.CameraCommitOf: the viewport's float conversion of the screen size and the degree-to-radian and aspect-ratio arithmetic are kept symbolic.
- Renderer.MTRenderer.SyncGPU: the fence wait is the parameter `completedValue`, which is not tied to the queue log; a failed `SetEventOnCompletion` is not modelled. The model does not establish that a completed wait covers the slot's own command list: `Render` signals a slot's fence before that slot's list is executed by the next `PopulateCommandList`, so the awaited value is signalled ahead of the list in queue order. The `UINT64` fence target is an unbounded `nat`; it would need 2^64 frames to wrap.
- Renderer.MTRenderer.Present: the vertical-sync wait is not modelled. The swap chain's next index is the parameter `reportedIndex`, required to be below the slot count.
- Renderer.MTRenderer.Render: the source does not check the 510-entry bound of the instance array, so the model requires at most 510 Triangle proxies. Resetting the command allocator and list is modelled as replacing the slot's recorded list; mapping the constant buffer is modelled as writing the slot's buffer object directly; `Close` and `Unmap` have no counterpart. Root signature, descriptor heap, render-target selection, clear, barriers and the draw are entries of the recorded `Command` list, and their GPU effects are not modelled.
- Renderer.MTRenderer.Deinit: the thread joins and proxy deletion are not modelled; a deleted proxy is a null slot.
- The GPU's own execution of the queue is not modelled. A fence's value is the last value signalled on it in the queue log, as if the GPU had drained the queue.
- MTRendererD3D12/source/MTRendererD3D12.h, MTRendererD3D12/source/stdafx.h and MTRendererD3D12/source/Main.cpp are not part of this model.
