# ImGui overlay hooks of BetterRenderDragon, in Dafny

BetterRenderDragon draws its ImGui overlay inside Minecraft Bedrock by
intercepting DXGI. `src/imgui/ImGuiHooks.cpp` does the following:

- It hooks `CreateDXGIFactory1`. When the game asks for an `IDXGIFactory2`,
  it patches the factory's `CreateSwapChainForCoreWindow` (vtable slot 16).
- When a swap chain is about to be created, it stores the core window if it
  is non-null, before the original creation runs and whatever its outcome.
  After a successful creation it decides which backend the game uses:
  - a Direct3D 12 command queue is tried first;
  - then a Direct3D 11 device;
  - otherwise nothing is patched.
- For the chosen backend it patches the swap chain's `Present` (slot 8) and
  `ResizeBuffers` (slot 13). Each patch is guarded by "the saved original is
  still null", so it happens at most once.
- Initialisation differs by backend:
  - Direct3D 11 initialises the overlay at once.
  - Direct3D 12 waits for the first `Present` that exposes `IDXGISwapChain3`.
- Each Direct3D 12 frame records its command list into the current back
  buffer's slot and submits it. `ResizeBuffers` releases the render targets,
  calls the original, then recreates the render targets.

The model has one class, `ImGuiHooks.HookState`. Its fields are every static the
hooks use, except `gpuName` and `createDXGIFactory1Original`:

- the factory, the core window, the renderer label and the shared
  `imguiInitialized` flag;
- the `vanilla2DeferredAvailable` option;
- the saved originals, as a registry keyed by backend and vtable slot;
- for Direct3D 12: the device, the queue, both descriptor heaps, the captured
  back-buffer count and the slot array;
- for Direct3D 11: the device, the immediate context, the count and the
  render-target-view array.

Each hook is a method that changes these fields. Everything the code asks of
Direct3D, DXGI or ImGui comes in one of two forms:

- an answer passed in as a parameter (a `SwapChain`, a `DeviceObject`,
  `Init12Replies`, `Init11Replies`);
- an `Event` the method appends to `trace`, such as "called the original
  Present", "created a view", "released a buffer" or "executed a command list".

The contracts state:

- the new value of every field the hook may change;
- the exact events each hook appends;
- the outcome, `Returned(hr)` or `Faulted`.

`Faulted` stands for the paths where the C++ dereferences a null pointer or
indexes past an array.

The modules:

- `Types`: handles, HRESULTs, the host objects and their replies, commands,
  back-buffer slots and events.
- `Trace`: quiet stretches of a trace, and the call count of originals.
- `SlotRelease`: the `releaseRT` pass shared by both backends.
- `Descriptors`: RTV descriptor arithmetic and the views a `createRT` pass
  creates.
- `Recording`: the Direct3D 12 frame's commands, and the resource-state
  tracking that shows its barriers cancel out.
- `HookRegistry`: the "patch only while the original is null" guard.
- `ImGuiHooks`: the hook state and every hook.
- `HookProperties`: lemmas that relate several hooks. They cover:
  - the original called exactly once;
  - initialisation never submitting drawing;
  - non-overlapping descriptors;
  - an idempotent release;
  - idempotent patching.
- `HookScenarios`: runs of the hooks on a fresh state, with what each run
  observes.

The `ResizeBuffers` hooks never read `BufferCount`. `createRT` loops over the
`backBufferCount` captured at initialisation, so a resize from three buffers
to two recreates three views, the third over the null buffer that
`GetBuffer(2)` leaves (`HookScenarios.Direct3D12ResizeToTwo`).

## Model

| member | source | states |
|---|---|---|
| ImGuiHooks.HookState.constructor | src/imgui/ImGuiHooks.cpp:28-50 | The process starts with no factory, window, device, queue, heaps or originals, an empty renderer label, the flag false and empty slot arrays with count 0 (the deferred option is taken as given). |
| ImGuiHooks.HookState.RendererType | src/imgui/ImGuiHooks.cpp:402 | getRendererType only ever reports "", "Direct3D 11" or "Direct3D 12". |
| ImGuiHooks.HookState.PatchOnce | src/imgui/ImGuiHooks.cpp:379-384 | A guarded patch saves the displaced entry only when no original is saved for that slot yet, after which the slot counts as patched; it appends a Patched event exactly when it patched. |
| ImGuiHooks.HookState.CreateDXGIFactory1Hook | src/imgui/ImGuiHooks.cpp:373-388 | The original runs first and its HRESULT is returned; only for IID_IDXGIFactory2 with success is slot 16 patched (once) and the factory stored; otherwise nothing changes. |
| ImGuiHooks.HookState.CreateSwapChainForCoreWindowHook | src/imgui/ImGuiHooks.cpp:315-369 | The window is stored only when non-null, the original creation always runs first and its HRESULT is returned; on failure nothing else changes; on success a command queue selects Direct3D 12 (queue captured, slots 8 and 13 patched once, no initialisation), else an ID3D11Device selects Direct3D 11 (device captured, patched once, initialised at once, flag set to the result), else nothing is patched. |
| ImGuiHooks.HookState.SettleBackend | src/imgui/ImGuiHooks.cpp:324-367 | After a successful creation, the backend is probed Direct3D 12 first; the registry grows by exactly that backend's two guarded patches and the Direct3D 11 branch alone initialises. |
| ImGuiHooks.HookState.CaptureQueue12 | src/imgui/ImGuiHooks.cpp:328-344 | The Direct3D 12 branch stores the queue and patches Present and ResizeBuffers once, leaving the flag and every Direct3D 11 static unchanged. |
| ImGuiHooks.HookState.CaptureDevice11 | src/imgui/ImGuiHooks.cpp:345-362 | The Direct3D 11 branch stores the device, patches both slots once, then initialises: renderer "Direct3D 11", no deferred rendering, flag true, one view per back buffer. |
| ImGuiHooks.HookState.PatchSwapChain | src/imgui/ImGuiHooks.cpp:331-339 | Present (slot 8) then ResizeBuffers (slot 13) are patched, each only if its original is still null; afterwards both keys are saved and the other backend's keys are untouched. |
| ImGuiHooks.HookState.CreateRT12 | src/imgui/ImGuiHooks.cpp:52-66 | For every i below the captured count, slot i gets back buffer i (null past the swap chain's buffers) as its resource and heap start + i × increment as its descriptor, no other slot field changes, and the views are created in index order. |
| ImGuiHooks.HookState.ReleaseRT12 | src/imgui/ImGuiHooks.cpp:68-75 | Every slot's resource becomes null, no other field changes, and exactly the non-null resources are released, in index order. |
| ImGuiHooks.HookState.CreateSlots12 | src/imgui/ImGuiHooks.cpp:90-104 | The creation loop succeeds iff every slot's allocator, list and Close answer S_OK; each slot up to the first failure holds what was created for it, later slots stay empty. |
| ImGuiHooks.HookState.CreateHeaps12 | src/imgui/ImGuiHooks.cpp:106-127 | The shader-visible CBV/SRV/UAV heap and the RTV heap are both created with backBufferCount descriptors; the RTV heap is attempted only after the first succeeded, and failure is any answer other than S_OK. |
| ImGuiHooks.HookState.InitializeBackend12 | src/imgui/ImGuiHooks.cpp:77-140 | If GetDevice fails it returns true and changes nothing; otherwise it sets the deferred option, "Direct3D 12" and the buffer count, makes that many fresh slots, and returns true iff every creation succeeded, with the render targets bound and the backend initialised only then. |
| ImGuiHooks.HookState.RenderImGui12 | src/imgui/ImGuiHooks.cpp:142-178 | The slot at the current index has its allocator reset and its list re-recorded with the frame's commands and closed, then submitted alone to the captured queue; no other slot changes; a missing slot, allocator or list is a fault. |
| ImGuiHooks.HookState.PresentHook12 | src/imgui/ImGuiHooks.cpp:180-202 | Without IDXGISwapChain3 it only calls the original; otherwise it attempts initialisation while the flag is false (failure keeps the flag false and skips rendering), renders once initialised; when no initialisation ran, the slots change only by this frame's list in the current slot, and only if that slot is usable; every returning path calls the original Present once with the same arguments and returns its HRESULT; the flag is never reset. |
| ImGuiHooks.HookState.PresentOnSwapChain3 | src/imgui/ImGuiHooks.cpp:189-201 | With IDXGISwapChain3: initialise if needed, then render and call through; after a first initialisation the slots are exactly those it made, and otherwise the slots are the old ones; either way only the current slot's list changes, to this frame's recorded and closed list, and only when that slot has an allocator and a list. |
| ImGuiHooks.HookState.EnsureInitialized12 | src/imgui/ImGuiHooks.cpp:189-197 | Initialisation is attempted only while the flag is false, and the flag becomes true exactly when it returns true. |
| ImGuiHooks.HookState.ResizeBuffersHook12 | src/imgui/ImGuiHooks.cpp:204-213 | releaseRT strictly before the original ResizeBuffers, createRT strictly after over the count captured at initialisation, and the original HRESULT returned unchanged. |
| ImGuiHooks.HookState.CreateRT11 | src/imgui/ImGuiHooks.cpp:225-235 | Every view slot below the captured count holds the view created over back buffer i, created in index order. |
| ImGuiHooks.HookState.ReleaseRT11 | src/imgui/ImGuiHooks.cpp:237-244 | Every view becomes null and exactly the non-null views are released, in index order. |
| ImGuiHooks.HookState.InitializeBackend11 | src/imgui/ImGuiHooks.cpp:246-267 | Always returns true after setting no deferred rendering, "Direct3D 11", the buffer count, a fresh view array, the immediate context and one view per back buffer. |
| ImGuiHooks.HookState.RenderImGui11 | src/imgui/ImGuiHooks.cpp:269-281 | Draws through the view at the current back-buffer index with the immediate context; an index past the view array is a fault. |
| ImGuiHooks.HookState.PresentHook11 | src/imgui/ImGuiHooks.cpp:283-297 | Never initialises; renders only when IDXGISwapChain3 is available and the flag is already true; every returning path calls the original Present once, last, and returns its HRESULT. |
| ImGuiHooks.HookState.ResizeBuffersHook11 | src/imgui/ImGuiHooks.cpp:299-308 | releaseRT before the original ResizeBuffers, createRT after over the captured count, and the original HRESULT returned unchanged. |
| Recording.FrameRestoresPresent | src/imgui/ImGuiHooks.cpp:152-177 | The frame's two barriers cancel out: from PRESENT the buffer is written only while it is a render target and ends in PRESENT; from any other state the first barrier is invalid. |
| Descriptors.DescriptorsDisjointAndInHeap | src/imgui/ImGuiHooks.cpp:55-64 | With a positive increment, distinct back buffers get distinct descriptors, all inside the first backBufferCount entries of the RTV heap. |
| SlotRelease.ReleasesOfNullIsEmpty | src/imgui/ImGuiHooks.cpp:68-75 | Releasing slots that are all null releases nothing. |
| SlotRelease.ReleasesExactlyLive | src/imgui/ImGuiHooks.cpp:237-244 | A release pass releases a pointer exactly when some slot holds it. |
| SlotRelease.ReleasesOnlyRelease | src/imgui/ImGuiHooks.cpp:68-75 | A release pass does nothing but release. |
| SlotRelease.ReleasesNoPointerTwice | src/imgui/ImGuiHooks.cpp:237-244 | When no live pointer sits in two slots, no pointer is released twice. |
| HookRegistry.InstallAllKeeps | src/imgui/ImGuiHooks.cpp:331-339 | A saved original is never overwritten, and every slot something tried to patch ends up saved. |
| HookRegistry.PatchedAtMostOnce | src/imgui/ImGuiHooks.cpp:349-357 | Every slot is patched at most once, only while unsaved, and its saved original is the entry that patch displaced. |
| Trace.CallsThroughLastIsExactlyOnce | src/imgui/ImGuiHooks.cpp:199-201 | A hook that appends quiet events and then the original's call has called the original exactly once. |
| HookProperties.InitAttemptIsQuiet12 | src/imgui/ImGuiHooks.cpp:77-140 | A Direct3D 12 initialisation attempt neither calls an original nor submits drawing. |
| HookProperties.FrameEventsShape12 | src/imgui/ImGuiHooks.cpp:148-177 | A frame calls no original, submits exactly when the slot is usable, and then its last event executes that slot's list alone with the frame's commands. |
| HookProperties.SubmittedFrameRestoresPresent | src/imgui/ImGuiHooks.cpp:172-177 | The list a rendered frame submits is valid for a back buffer in PRESENT and returns it to PRESENT. |
| HookProperties.PresentCallsOriginalOnce | src/imgui/ImGuiHooks.cpp:181-202 | Quiet initialisation and frame events followed by the original's call add up to exactly one call of the original, last. |
| HookProperties.PresentHook12CallsOriginalOnce | src/imgui/ImGuiHooks.cpp:181-202 | Whatever initialisation attempt and frame precede it, a returning Direct3D 12 Present calls the original Present exactly once, last, with the same arguments. |
| HookProperties.ResizeCallsOriginalOnce | src/imgui/ImGuiHooks.cpp:205-213 | Releases, then the original, then view creations: exactly one call of the original, and no drawing submitted. |
| HookProperties.ResizeHook12CallsOriginalOnce | src/imgui/ImGuiHooks.cpp:205-213 | ImGuiD3D12's ResizeBuffers hook calls the original exactly once, whether or not it recreates views. |
| HookProperties.ResizeHook11CallsOriginalOnce | src/imgui/ImGuiHooks.cpp:300-308 | ImGuiD3D11's ResizeBuffers hook calls the original exactly once. |
| HookProperties.ViewsDoNotOverlap12 | src/imgui/ImGuiHooks.cpp:58-65 | The views one createRT pass creates sit at pairwise distinct descriptors inside the RTV heap. |
| HookProperties.BoundSlotsReleasedOnce | src/imgui/ImGuiHooks.cpp:52-75 | On a swap chain with distinct back buffers, the slots createRT binds hold no live buffer twice, so the following releaseRT releases each buffer at most once. |
| HookProperties.SecondReleaseRTIsNoop | src/imgui/ImGuiHooks.cpp:68-75 | After releaseRT has nulled every resource, a second releaseRT releases nothing. |
| HookProperties.SecondPatchingIsNoop | src/imgui/ImGuiHooks.cpp:331-357 | Repeating the same guarded patches changes no saved original and patches nothing. |
| HookProperties.AlreadySavedIsNoop | src/imgui/ImGuiHooks.cpp:379-384 | Guarded patches on slots whose originals are saved leave the registry alone and patch nothing. |
| HookScenarios.Direct3D11Session | src/imgui/ImGuiHooks.cpp:345-362 | Creation on an ID3D11Device with two buffers: "Direct3D 11", no deferred rendering, two views, and the first Present draws through view 0 and returns the original HRESULT. |
| HookScenarios.Direct3D12FirstPresent | src/imgui/ImGuiHooks.cpp:189-199 | Creation on a command queue defers initialisation; the first Present sets "Direct3D 12" and deferred rendering, creates both heaps with three descriptors and three slots, each with its allocator, a closed list, its back buffer and its RTV descriptor, records the frame into slot 0 and returns the original HRESULT. |
| HookScenarios.HealthySlot12 | src/imgui/ImGuiHooks.cpp:90-104 | When every creation succeeds, slot i holds allocator i, closed list i and back buffer i at RTV descriptor heap start + i × increment, and slot 0's list holds the first frame. |
| HookScenarios.Direct3D12SecondFrame | src/imgui/ImGuiHooks.cpp:189-199 | A second Present on back buffer 1 does not initialise again; slot 1's list is re-recorded with the frame for buffer 1 and slots 0 and 2 are unchanged. |
| HookScenarios.Direct3D12ResizeToTwo | src/imgui/ImGuiHooks.cpp:208-211 | A resize from three buffers to two releases the three old buffers, calls the original, and recreates three views, the third over a null buffer. |
| HookScenarios.Direct3D12WithoutDevice | src/imgui/ImGuiHooks.cpp:77-78 | When GetDevice fails on the first Present, initialisation reports success with no slots, the flag is set and the frame faults. |
| HookScenarios.Direct3D12RetriesAfterFailure | src/imgui/ImGuiHooks.cpp:191-201 | A failing allocator keeps the flag false: the first Present's events are only the ImGui setup and the original Present. The next Present retries, succeeds, submits slot 0's frame list and then calls the original Present. |
| HookScenarios.UnsupportedDevice | src/imgui/ImGuiHooks.cpp:363-364 | A device that is neither a command queue nor an ID3D11Device patches nothing and leaves the renderer label empty. |
| HookScenarios.FailedCreation | src/imgui/ImGuiHooks.cpp:322-324 | A failed original creation returns its HRESULT and patches nothing, even on a command queue. |

## Left out

- Direct3D, DXGI and COM semantics are not modelled: QueryInterface, reference counting, GetBuffer, CreateRenderTargetView, GetDesc and GPU execution. Their answers are parameters, and their effects are trace events.
- ImGui itself is not modelled: initializeImGui, updateImGui, ImGui::Render and the ImGui_Impl backends are foreign code with no visible logic. They appear only as the ImGuiSetup, BackendInit and DrawOverlay events.
- The vtable and import patching mechanics are not modelled: memory::ReplaceVtable and memory::hook. Only the "original still null" guard is modelled. The import hook's saved `createDXGIFactory1Original` is not a field; the original factory call's HRESULT is a parameter. initImGuiHooks (lines 392-396) only installs the import hook, so it is not a member.
- getGPUName (line 400) returns gpuName, which this file never assigns. It and the printf diagnostics are left out.
- The threading comments at lines 341-344 and 358-360 are not modelled. The host serialises the hooks, so there is no concurrency.
- Descriptor handles and buffer counts are naturals. Pointer and size_t overflow of the handle arithmetic is not modelled.
- Undefined behaviour is not modelled beyond its outcome. A null dereference or an index past a slot array becomes the Faulted outcome, after the events that precede it.
- ImGuiHooks.HookState.CreateRT11: when CreateRenderTargetView fails, the C++ stores an uninitialised pointer. The model stores a caller-supplied value instead.
- The initial value of brd::Options::vanilla2DeferredAvailable is set in gui/Options.h, which is not part of this model. It is a constructor parameter.
- ImGuiHooks.HookState.RenderImGui12: the ImGui draw data is modelled as one DrawOverlay command. Reset failures of the allocator or list are not modelled.
