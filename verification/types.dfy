/**
 * Values shared by the whole model of the overlay's hook layer: opaque COM
 * handles, HRESULTs, what the host's objects answer when the hooks query them,
 * the commands recorded into a Direct3D 12 command list, and the events the
 * hooks cause outside themselves (calls into the host, releases, submissions).
 */
module Types {

  datatype Option<+T> = None | Some(value: T)

  /** An opaque interface or function pointer. A pointer that may be null is an Option<Handle>. */
  type Handle = nat

  /** An HRESULT: negative values are failures, so SUCCEEDED is a sign test. */
  type HResult = int

  const S_OK: HResult := 0

  predicate Succeeded(hr: HResult) { hr >= 0 }

  /** The strings getRendererType reports. */
  const Renderer11 := "Direct3D 11"
  const Renderer12 := "Direct3D 12"

  /** The vtable slots the hooks replace. */
  const CreateSwapChainForCoreWindowSlot: nat := 16
  const PresentSlot: nat := 8
  const ResizeBuffersSlot: nat := 13

  /**
   * Whose saved original a guard belongs to: the factory hook, or one of the two
   * namespaces, each of which keeps its own Present and ResizeBuffers originals.
   */
  datatype HookOwner = FactoryHooks | D3D12Hooks | D3D11Hooks

  datatype HookKey = HookKey(owner: HookOwner, slot: nat)

  const FactoryKey := HookKey(FactoryHooks, CreateSwapChainForCoreWindowSlot)
  const PresentKey12 := HookKey(D3D12Hooks, PresentSlot)
  const ResizeKey12 := HookKey(D3D12Hooks, ResizeBuffersSlot)
  const PresentKey11 := HookKey(D3D11Hooks, PresentSlot)
  const ResizeKey11 := HookKey(D3D11Hooks, ResizeBuffersSlot)

  /** The interface a CreateDXGIFactory1 caller asks for. */
  datatype Iid = IDXGIFactory2 | OtherInterface(id: nat)

  /** A factory object as the factory hook sees it: its identity and the entry in vtable slot 16. */
  datatype Factory = Factory(id: Handle, createSwapChainEntry: Handle)

  /** The device argument of CreateSwapChainForCoreWindow and what QueryInterface on it answers. */
  datatype DeviceObject = DeviceObject(id: Handle, isCommandQueue: bool, isD3D11Device: bool)

  /**
   * A swap chain as the hooks see it: whether QueryInterface(IDXGISwapChain3)
   * succeeds, its back buffers (|buffers| is DXGI_SWAP_CHAIN_DESC.BufferCount),
   * GetCurrentBackBufferIndex, and the vtable entries at slots 8 and 13.
   */
  datatype SwapChain = SwapChain(
    id: Handle,
    isSwapChain3: bool,
    buffers: seq<Handle>,
    currentIndex: nat,
    presentEntry: Handle,
    resizeEntry: Handle)

  /** GetBuffer(i): fails, leaving the out-pointer null, for an index past the buffer count. */
  function GetBuffer(sc: SwapChain, i: nat): (b: Option<Handle>)
    ensures b.Some? <==> i < |sc.buffers|
    ensures b.Some? ==> b.value == sc.buffers[i]
  {
    if i < |sc.buffers| then Some(sc.buffers[i]) else None
  }

  /** The answer of a Create* call: its HRESULT and the object it hands out on S_OK. */
  datatype Reply = Reply(hr: HResult, obj: Handle)

  /** The out-pointer a Create* call leaves behind: null unless it returned S_OK. */
  function Out(r: Reply): Option<Handle>
  {
    if r.hr == S_OK then Some(r.obj) else None
  }

  /** The answer of CreateDescriptorHeap, with GetCPUDescriptorHandleForHeapStart of the new heap. */
  datatype HeapReply = HeapReply(hr: HResult, obj: Handle, cpuStart: nat)

  datatype HeapKind = CbvSrvUav | Rtv

  datatype DescriptorHeap = DescriptorHeap(
    id: Handle,
    kind: HeapKind,
    numDescriptors: nat,
    shaderVisible: bool,
    cpuStart: nat)

  /** A Direct3D 12 device: its identity and GetDescriptorHandleIncrementSize(RTV). */
  datatype D3D12Device = D3D12Device(id: Handle, rtvIncrement: nat)

  /**
   * What the host answers during Direct3D 12 initialisation: GetDevice (None when
   * it fails), then per back buffer i CreateCommandAllocator, CreateCommandList and
   * Close on the new list, then the two CreateDescriptorHeap calls.
   */
  datatype Init12Replies = Init12Replies(
    device: Option<D3D12Device>,
    allocators: nat -> Reply,
    lists: nat -> Reply,
    closes: nat -> HResult,
    imguiHeap: HeapReply,
    rtvHeap: HeapReply)

  /**
   * What the host answers during Direct3D 11 initialisation: GetImmediateContext,
   * and the pointer CreateRenderTargetView leaves for back buffer i.
   */
  datatype Init11Replies = Init11Replies(
    immediateContext: Handle,
    views: nat -> Option<Handle>)

  datatype ResourceState = StatePresent | StateRenderTarget

  /** The commands the overlay records into a Direct3D 12 command list. */
  datatype Command =
    | Barrier(resource: Option<Handle>, before: ResourceState, after: ResourceState)
    | SetRenderTarget(descriptor: nat)
    | SetDescriptorHeaps(heaps: seq<Option<Handle>>)
    | DrawOverlay

  datatype CommandList = CommandList(id: Handle, closed: bool, commands: seq<Command>)

  /** One entry of ImGuiD3D12's backBufferContext array. */
  datatype BackBufferContext = BackBufferContext(
    allocator: Option<Handle>,
    list: Option<CommandList>,
    resource: Option<Handle>,
    descriptor: nat)

  /** A value-initialised BackBufferContext: null pointers and a zero descriptor handle. */
  const EmptyContext := BackBufferContext(None, None, None, 0)

  /** The outcome of an intercepted call: it returns an HRESULT, or the process faults on a null or out-of-range access. */
  datatype HookResult = Returned(hr: HResult) | Faulted

  /** What the hooks cause outside themselves, in order. */
  datatype Event =
    | OriginalCreateFactory(riid: Iid)
    | OriginalCreateSwapChain(device: Handle, window: Option<Handle>)
    | OriginalPresent(chain: Handle, syncInterval: nat, flags: nat)
    | OriginalResize(chain: Handle, bufferCount: nat, width: nat, height: nat, format: nat, flags: nat)
    | Patched(key: HookKey, original: Handle)
    | Release(obj: Handle)
    | CreateView12(buffer: Option<Handle>, descriptor: nat)
    | CreateView11(buffer: Option<Handle>, view: Option<Handle>)
    | ImGuiSetup
    | BackendInit12(window: Option<Handle>, device: Handle, bufferCount: nat, heap: Handle)
    | BackendInit11(window: Option<Handle>, device: Handle, context: Handle)
    | ResetAllocator(allocator: Handle)
    | Execute(queue: Handle, lists: seq<Handle>, commands: seq<Command>)
    | Draw11(context: Handle, view: Option<Handle>)
  {
    /** A call through a saved original into the host. */
    predicate IsOriginalCall() {
      OriginalCreateFactory? || OriginalCreateSwapChain? || OriginalPresent? || OriginalResize?
    }

    /** Overlay drawing handed to the GPU. */
    predicate IsSubmission() {
      Execute? || Draw11?
    }
  }
}
