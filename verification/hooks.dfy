/**
 * The process-wide state of the overlay's hook layer and the operations that
 * change it: the guarded patching of the factory and swap-chain vtables, the
 * backend classification at swap-chain creation, and for each backend the
 * render-target lifecycle, initialisation, per-frame rendering and the Present
 * and ResizeBuffers interceptions. Every static of the source file is a field of
 * one HookState; every call into the host is a parameter (its answer) or an
 * event appended to `trace`.
 */
module ImGuiHooks {
  import opened Types
  import opened Trace
  import opened SlotRelease
  import opened Descriptors
  import opened Recording
  import opened HookRegistry

  datatype Backend = Explicit12 | Immediate11

  /** Backend probing at swap-chain creation: a command queue means Direct3D 12, checked before Direct3D 11. */
  function Classify(device: DeviceObject): Option<Backend>
  {
    if device.isCommandQueue then Some(Explicit12)
    else if device.isD3D11Device then Some(Immediate11)
    else None
  }

  /** The Present (slot 8) and ResizeBuffers (slot 13) patches of one namespace, in the order the source tries them. */
  function SwapChainAttempts(owner: HookOwner, sc: SwapChain): seq<Attempt>
  {
    [Attempt(HookKey(owner, PresentSlot), sc.presentEntry), Attempt(HookKey(owner, ResizeBuffersSlot), sc.resizeEntry)]
  }

  /** Some swap-chain slot of namespace `owner` is patched. */
  predicate SwapChainHooked(m: Registry, owner: HookOwner)
  {
    HookKey(owner, PresentSlot) in m || HookKey(owner, ResizeBuffersSlot) in m
  }

  function Resources(cs: seq<BackBufferContext>): (rs: seq<Option<Handle>>)
    ensures |rs| == |cs|
    ensures forall i :: 0 <= i < |cs| ==> rs[i] == cs[i].resource
  {
    seq(|cs|, i requires 0 <= i < |cs| => cs[i].resource)
  }

  /** Slot i's allocator, list and Close all answered S_OK. */
  predicate SlotCreated(r: Init12Replies, i: nat)
  {
    r.allocators(i).hr == S_OK && r.lists(i).hr == S_OK && r.closes(i) == S_OK
  }

  ghost predicate SlotsCreated(r: Init12Replies, n: nat)
  {
    forall i :: 0 <= i < n ==> SlotCreated(r, i)
  }

  /** Every creation step of a Direct3D 12 initialisation over n back buffers answers S_OK. */
  ghost predicate InitSucceeds12(r: Init12Replies, n: nat)
  {
    SlotsCreated(r, n) && r.imguiHeap.hr == S_OK && r.rtvHeap.hr == S_OK
  }

  /** What initializeImguiBackend returns: true when GetDevice fails, otherwise whether every creation succeeded. */
  ghost predicate InitResult12(r: Init12Replies, n: nat)
  {
    r.device.None? || InitSucceeds12(r, n)
  }

  /** Slot i as the creation loop leaves it when it reaches slot i: allocator, then list, then Close. */
  function SlotAttempt(r: Init12Replies, i: nat): BackBufferContext
  {
    var a := r.allocators(i);
    var l := r.lists(i);
    EmptyContext.(
      allocator := Out(a),
      list := if a.hr == S_OK && l.hr == S_OK then Some(CommandList(l.obj, r.closes(i) == S_OK, [])) else None)
  }

  function HeapOut(h: HeapReply, kind: HeapKind, n: nat, shaderVisible: bool): Option<DescriptorHeap>
  {
    if h.hr == S_OK then Some(DescriptorHeap(h.obj, kind, n, shaderVisible, h.cpuStart)) else None
  }

  function HeapHandle(h: Option<DescriptorHeap>): Option<Handle>
  {
    if h.Some? then Some(h.value.id) else None
  }

  /** Slot i after createRT: back buffer i as its resource, descriptor i of the RTV heap as its handle. */
  function BoundContext(c: BackBufferContext, sc: SwapChain, heapStart: nat, increment: nat, i: nat): BackBufferContext
  {
    c.(resource := GetBuffer(sc, i), descriptor := DescriptorAt(heapStart, increment, i))
  }

  /** Slot i after a Direct3D 12 initialisation attempt whose GetDevice succeeded; `succeeded` says whether every creation did. */
  ghost function ContextAfterInit12(sc: SwapChain, r: Init12Replies, succeeded: bool, i: nat): BackBufferContext
    requires r.device.Some?
  {
    var created := if SlotsCreated(r, i) then SlotAttempt(r, i) else EmptyContext;
    if succeeded then BoundContext(created, sc, r.rtvHeap.cpuStart, r.device.value.rtvIncrement, i) else created
  }

  /** Every slot is as a Direct3D 12 initialisation attempt left it, given whether the attempt succeeded. */
  ghost predicate SlotsAfterInit12(slots: array<BackBufferContext>, sc: SwapChain, r: Init12Replies, succeeded: bool)
    requires r.device.Some?
    reads slots
  {
    forall i :: 0 <= i < slots.Length ==> slots[i] == ContextAfterInit12(sc, r, succeeded, i)
  }

  /** Slot i after an initialisation attempt and, when `rendered`, one frame recorded on the current back buffer. */
  ghost function InitThenFrame12(sc: SwapChain, r: Init12Replies, i: nat, rendered: bool, heap: Option<Handle>): BackBufferContext
    requires r.device.Some?
  {
    var c := ContextAfterInit12(sc, r, InitSucceeds12(r, |sc.buffers|), i);
    if rendered && i == sc.currentIndex && c.list.Some? then c.(list := Some(FrameList(c, heap))) else c
  }

  /**
   * The slots after a Present on slots that initialisation left alone: when the
   * frame rendered (`returned` on a usable slot), the current slot's list holds
   * the frame; otherwise, and for every other slot, nothing changes.
   */
  function SteadyFrameSlots12(cs: seq<BackBufferContext>, index: nat, returned: bool, heap: Option<Handle>): seq<BackBufferContext>
  {
    if returned && RenderReady12(cs, index)
    then cs[index := cs[index].(list := Some(FrameList(cs[index], heap)))]
    else cs
  }

  /** renderImGui can use slot `index`: it exists and its allocator and list are not null. */
  predicate RenderReady12(cs: seq<BackBufferContext>, index: nat)
  {
    index < |cs| && cs[index].allocator.Some? && cs[index].list.Some?
  }

  /** The events of one Direct3D 12 initialisation whose every creation succeeded. */
  function InitEvents12(sc: SwapChain, r: Init12Replies, window: Option<Handle>): seq<Event>
    requires r.device.Some?
  {
    [ImGuiSetup] + ViewCreations12(sc, r.rtvHeap.cpuStart, r.device.value.rtvIncrement, |sc.buffers|) +
    [BackendInit12(window, r.device.value.id, |sc.buffers|, r.imguiHeap.obj)]
  }

  /** The events of one Direct3D 12 initialisation attempt. */
  ghost function InitAttemptEvents12(sc: SwapChain, r: Init12Replies, window: Option<Handle>): seq<Event>
  {
    if r.device.None? then []
    else if InitSucceeds12(r, |sc.buffers|) then InitEvents12(sc, r, window)
    else [ImGuiSetup]
  }

  /** A slot's command list after one frame was recorded into it and closed. */
  function FrameList(c: BackBufferContext, heap: Option<Handle>): CommandList
    requires c.list.Some?
  {
    CommandList(c.list.value.id, true, FrameCommands(c.resource, c.descriptor, heap))
  }

  /** The events of one rendered Direct3D 12 frame: reset the allocator, then submit the frame's list alone. */
  function RenderEvents12(c: BackBufferContext, queue: Handle, heap: Option<Handle>): seq<Event>
    requires c.allocator.Some? && c.list.Some?
  {
    [ResetAllocator(c.allocator.value), Execute(queue, [c.list.value.id], FrameCommands(c.resource, c.descriptor, heap))]
  }

  /** The events of a Direct3D 12 frame that faults: the allocator reset, when the allocator was there to reset. */
  function FaultEvents12(cs: seq<BackBufferContext>, index: nat): seq<Event>
  {
    if index < |cs| && cs[index].allocator.Some? then [ResetAllocator(cs[index].allocator.value)] else []
  }

  /** The events of one Direct3D 12 frame on slot `index`: a full frame when the slot is ready, the fault's events otherwise. */
  function FrameEvents12(cs: seq<BackBufferContext>, index: nat, queue: Handle, heap: Option<Handle>): seq<Event>
  {
    if RenderReady12(cs, index) then RenderEvents12(cs[index], queue, heap) else FaultEvents12(cs, index)
  }

  /** The backend swap-chain creation settles on: none when the original creation failed. */
  function Chosen(device: DeviceObject, hr: HResult): Option<Backend>
  {
    if Succeeded(hr) then Classify(device) else None
  }

  /** The guarded patches swap-chain creation attempts, by the backend it settles on. */
  function CreationPatches(device: DeviceObject, sc: SwapChain, hr: HResult): seq<Attempt>
  {
    match Chosen(device, hr)
    case None => []
    case Some(Explicit12) => SwapChainAttempts(D3D12Hooks, sc)
    case Some(Immediate11) => SwapChainAttempts(D3D11Hooks, sc)
  }

  /** Slot i of `slots` holds the view the device created for back buffer i. */
  ghost predicate Holds(slots: array<Option<Handle>>, created: nat -> Option<Handle>)
    reads slots
  {
    forall i :: 0 <= i < slots.Length ==> slots[i] == created(i)
  }

  class HookState {
    // File-level statics.
    var factory: Option<Handle>
    var coreWindow: Option<Handle>
    var rendererType: string
    var imguiInitialized: bool
    /** The external option brd::Options::vanilla2DeferredAvailable. */
    var deferredAvailable: bool
    /** The Original_* pointers of every namespace, keyed by owner and vtable slot. */
    var originals: Registry
    /** Everything the hooks caused outside themselves, oldest first. */
    var trace: seq<Event>

    // Statics of namespace ImGuiD3D12.
    var device12: Option<D3D12Device>
    var commandQueue: Option<Handle>
    var imguiHeap: Option<DescriptorHeap>
    var rtvHeap: Option<DescriptorHeap>
    var backBufferCount12: nat
    var contexts: array<BackBufferContext>

    // Statics of namespace ImGuiD3D11.
    var device11: Option<Handle>
    var deviceContext: Option<Handle>
    var backBufferCount11: nat
    var views: array<Option<Handle>>

    /**
     * The Direct3D 12 statics after an initialisation attempt whose GetDevice
     * succeeded: the device, deferred rendering, the "Direct3D 12" label and the
     * back-buffer count are set whatever fails later; each heap is set when the
     * creations before it succeeded and otherwise keeps its earlier value.
     */
    ghost predicate Configured12(sc: SwapChain, r: Init12Replies, heapBefore: Option<DescriptorHeap>, rtvBefore: Option<DescriptorHeap>)
      requires r.device.Some?
      reads this
    {
      && device12 == r.device && deferredAvailable && rendererType == Renderer12
      && backBufferCount12 == |sc.buffers|
      && imguiHeap == (if SlotsCreated(r, |sc.buffers|) then HeapOut(r.imguiHeap, CbvSrvUav, |sc.buffers|, true) else heapBefore)
      && rtvHeap == (if SlotsCreated(r, |sc.buffers|) && r.imguiHeap.hr == S_OK
                     then HeapOut(r.rtvHeap, Rtv, |sc.buffers|, false) else rtvBefore)
    }

    /** Each backend's slot array has its backBufferCount entries. */
    ghost predicate SlotsSized()
      reads this`contexts, this`backBufferCount12, this`views, this`backBufferCount11
    {
      contexts.Length == backBufferCount12 && views.Length == backBufferCount11
    }

    ghost predicate Valid()
      reads this`contexts, this`backBufferCount12, this`views, this`backBufferCount11
      reads this`rendererType, this`deferredAvailable, this`originals, this`commandQueue, this`device11, this`deviceContext
    {
      && SlotsSized()
      && (rendererType == "" || rendererType == Renderer11 || rendererType == Renderer12)
      // The deferred option is true exactly when the active backend is Direct3D 12.
      && (rendererType != "" ==> (deferredAvailable <==> rendererType == Renderer12))
      // A Direct3D 12 swap-chain hook is installed only after the command queue was captured.
      && (SwapChainHooked(originals, D3D12Hooks) ==> commandQueue.Some?)
      // A Direct3D 11 swap-chain hook is installed only after the device and its immediate context were captured.
      && (SwapChainHooked(originals, D3D11Hooks) ==> device11.Some? && deviceContext.Some?)
    }

    /** The Direct3D 12 backend's configuration (everything but the slot contents). */
    ghost function Config12(): (Option<D3D12Device>, Option<DescriptorHeap>, Option<DescriptorHeap>, nat, array<BackBufferContext>)
      reads this
    {
      (device12, imguiHeap, rtvHeap, backBufferCount12, contexts)
    }

    /** The Direct3D 11 backend's configuration (everything but the slot contents). */
    ghost function Config11(): (nat, array<Option<Handle>>, Option<Handle>)
      reads this
    {
      (backBufferCount11, views, deviceContext)
    }

    /** What the overlay reports to the rest of the mod: the renderer name and the deferred option. */
    ghost function Reported(): (string, bool)
      reads this
    {
      (rendererType, deferredAvailable)
    }

    /** The statics as the process starts: everything null, zero or empty, the option as configured. */
    constructor (deferredOption: bool)
      ensures Valid() && fresh(contexts) && fresh(views)
      ensures factory == None && coreWindow == None && rendererType == "" && !imguiInitialized
      ensures deferredAvailable == deferredOption && originals == map[] && trace == []
      ensures device12 == None && commandQueue == None && imguiHeap == None && rtvHeap == None
      ensures backBufferCount12 == 0 && device11 == None && deviceContext == None && backBufferCount11 == 0
    {
      factory, coreWindow, rendererType, imguiInitialized := None, None, "", false;
      deferredAvailable, originals, trace := deferredOption, map[], [];
      device12, commandQueue, imguiHeap, rtvHeap := None, None, None, None;
      backBufferCount12 := 0;
      contexts := new BackBufferContext[0];
      device11, deviceContext, backBufferCount11 := None, None, 0;
      views := new Option<Handle>[0];
    }

    /** getRendererType: unset, "Direct3D 11" or "Direct3D 12", and "Direct3D 12" exactly when the deferred option is on. */
    function RendererType(): (r: string)
      reads this
      requires Valid()
      ensures r == "" || r == Renderer11 || r == Renderer12
      ensures r != "" ==> (deferredAvailable <==> r == Renderer12)
    {
      rendererType
    }

    /** `if (!Original) ReplaceVtable(...)`: patch only while the saved original is null. */
    method PatchOnce(a: Attempt)
      modifies this`originals, this`trace
      ensures originals == InstallAll(old(originals), [a])
      ensures originals.Keys == old(originals).Keys + {a.key}
      ensures trace == old(trace) + PatchEvents(old(originals), [a])
    {
      assert [a][1..] == [];
      if a.key !in originals {
        originals := originals[a.key := a.entry];
        trace := trace + [Patched(a.key, a.entry)];
      }
    }

    // ----- ImGuiD3D12 -----

    /**
     * ImGuiD3D12::createRT: for every i below the captured count, slot i gets back
     * buffer i and the RTV descriptor heap start + i * increment, and a view of
     * the buffer is created there; no other field of any slot changes.
     */
    method CreateRT12(sc: SwapChain)
      requires SlotsSized() && device12.Some? && rtvHeap.Some?
      modifies this`trace, contexts
      ensures forall i :: 0 <= i < contexts.Length ==>
        contexts[i] == BoundContext(old(contexts[i]), sc, rtvHeap.value.cpuStart, device12.value.rtvIncrement, i)
      ensures trace == old(trace) + ViewCreations12(sc, rtvHeap.value.cpuStart, device12.value.rtvIncrement, backBufferCount12)
    {
      var increment := device12.value.rtvIncrement;
      var handle := rtvHeap.value.cpuStart;
      ghost var start := handle;
      var i: nat := 0;
      while i < backBufferCount12
        invariant i <= backBufferCount12
        invariant handle == DescriptorAt(start, increment, i)
        invariant forall j :: 0 <= j < i ==> contexts[j] == BoundContext(old(contexts[j]), sc, start, increment, j)
        invariant forall j :: i <= j < contexts.Length ==> contexts[j] == old(contexts[j])
        invariant trace == old(trace) + ViewCreations12(sc, start, increment, i)
      {
        contexts[i] := contexts[i].(descriptor := handle);
        var buffer := GetBuffer(sc, i);
        trace := trace + [CreateView12(buffer, handle)];
        contexts[i] := contexts[i].(resource := buffer);
        assert ViewCreations12(sc, start, increment, i + 1) == ViewCreations12(sc, start, increment, i) + [CreateView12(buffer, handle)];
        assert (i + 1) * increment == i * increment + increment;
        handle := handle + increment;
        i := i + 1;
      }
    }

    /** ImGuiD3D12::releaseRT: releases each non-null resource once, in index order, and leaves every resource null. */
    method ReleaseRT12()
      requires SlotsSized()
      modifies this`trace, contexts
      ensures forall i :: 0 <= i < contexts.Length ==> contexts[i] == old(contexts[i]).(resource := None)
      ensures trace == old(trace) + Releases(Resources(old(contexts[..])))
    {
      ghost var before := Resources(contexts[..]);
      var i: nat := 0;
      while i < backBufferCount12
        invariant i <= backBufferCount12
        invariant forall j :: 0 <= j < i ==> contexts[j] == old(contexts[j]).(resource := None)
        invariant forall j :: i <= j < contexts.Length ==> contexts[j] == old(contexts[j])
        invariant trace == old(trace) + Releases(before[..i])
      {
        assert before[..i + 1][..i] == before[..i];
        if contexts[i].resource.Some? {
          trace := trace + [Release(contexts[i].resource.value)];
          contexts[i] := contexts[i].(resource := None);
        }
        i := i + 1;
      }
      assert before[..backBufferCount12] == before;
    }

    /**
     * The slot loop of ImGuiD3D12::initializeImguiBackend over value-initialised
     * slots: slot i gets an allocator, then a command list, then the list is
     * closed, and the first answer that is not S_OK stops the loop with false.
     * Slots up to and including the failing one keep what was created; later
     * slots stay empty.
     */
    method CreateSlots12(r: Init12Replies) returns (ok: bool)
      requires forall j :: 0 <= j < contexts.Length ==> contexts[j] == EmptyContext
      modifies contexts
      ensures ok == SlotsCreated(r, contexts.Length)
      ensures forall j :: 0 <= j < contexts.Length ==>
        contexts[j] == (if SlotsCreated(r, j) then SlotAttempt(r, j) else EmptyContext)
    {
      var i: nat := 0;
      while i < contexts.Length
        invariant i <= contexts.Length
        invariant SlotsCreated(r, i)
        invariant forall j :: 0 <= j < i ==> contexts[j] == SlotAttempt(r, j)
        invariant forall j :: i <= j < contexts.Length ==> contexts[j] == EmptyContext
      {
        var a := r.allocators(i);
        contexts[i] := contexts[i].(allocator := Out(a));
        if a.hr != S_OK {
          FirstFailedSlot(r, i);
          return false;
        }
        var l := r.lists(i);
        if l.hr == S_OK {
          contexts[i] := contexts[i].(list := Some(CommandList(l.obj, false, [])));
        }
        if l.hr != S_OK {
          FirstFailedSlot(r, i);
          return false;
        }
        var closeHr := r.closes(i);
        if closeHr == S_OK {
          contexts[i] := contexts[i].(list := Some(contexts[i].list.value.(closed := true)));
        }
        if closeHr != S_OK {
          FirstFailedSlot(r, i);
          return false;
        }
        assert SlotCreated(r, i);
        i := i + 1;
      }
      SlotsCreatedPrefixes(r, i);
      return true;
    }

    /**
     * The two descriptor heaps of ImGuiD3D12::initializeImguiBackend, each with one
     * descriptor per back buffer: first the overlay's shader-visible CBV/SRV/UAV
     * heap, then the RTV heap, stopping at the first that does not answer S_OK.
     */
    method CreateHeaps12(imguiReply: HeapReply, rtvReply: HeapReply, n: nat) returns (ok: bool)
      modifies this`imguiHeap, this`rtvHeap
      ensures ok == (imguiReply.hr == S_OK && rtvReply.hr == S_OK)
      ensures imguiHeap == HeapOut(imguiReply, CbvSrvUav, n, true)
      ensures rtvHeap == if imguiReply.hr == S_OK then HeapOut(rtvReply, Rtv, n, false) else old(rtvHeap)
    {
      imguiHeap := HeapOut(imguiReply, CbvSrvUav, n, true);
      if imguiReply.hr != S_OK {
        return false;
      }
      rtvHeap := HeapOut(rtvReply, Rtv, n, false);
      return rtvReply.hr == S_OK;
    }

    /**
     * ImGuiD3D12::initializeImguiBackend. When GetDevice fails it returns true and
     * changes nothing. Otherwise it turns the deferred option on, reports
     * "Direct3D 12", takes the buffer count from the swap chain, allocates that
     * many fresh slots and gives each an allocator and a closed command list, then
     * creates both descriptor heaps with that many descriptors, creates the
     * render targets and initialises the overlay backend. The first creation that
     * does not answer S_OK ends it with false, leaving what was created so far.
     */
    method InitializeBackend12(sc: SwapChain, r: Init12Replies) returns (ok: bool)
      requires SlotsSized()
      modifies this`trace, this`device12, this`deferredAvailable, this`rendererType, this`backBufferCount12
      modifies this`contexts, this`imguiHeap, this`rtvHeap
      ensures SlotsSized()
      ensures ok == InitResult12(r, |sc.buffers|)
      ensures r.device.None? ==> trace == old(trace) && Config12() == old(Config12()) && Reported() == old(Reported())
      ensures r.device.Some? && !ok ==> trace == old(trace) + [ImGuiSetup]
      ensures r.device.Some? && ok ==>
        trace == old(trace) + [ImGuiSetup] +
                 ViewCreations12(sc, r.rtvHeap.cpuStart, r.device.value.rtvIncrement, |sc.buffers|) +
                 [BackendInit12(coreWindow, r.device.value.id, |sc.buffers|, r.imguiHeap.obj)]
      ensures r.device.Some? ==> Configured12(sc, r, old(imguiHeap), old(rtvHeap))
      ensures r.device.Some? ==> fresh(contexts) && SlotsAfterInit12(contexts, sc, r, ok)
    {
      if r.device.None? {
        return true;
      }
      device12 := r.device;
      deferredAvailable := true;
      rendererType := Renderer12;
      trace := trace + [ImGuiSetup];
      var n := |sc.buffers|;
      backBufferCount12 := n;
      contexts := new BackBufferContext[n](_ => EmptyContext);
      ok := CreateSlots12(r);
      if ok {
        ok := CreateHeaps12(r.imguiHeap, r.rtvHeap, n);
      }
      if ok {
        CreateRT12(sc);
        trace := trace + [BackendInit12(coreWindow, r.device.value.id, n, r.imguiHeap.obj)];
      }
    }

    /**
     * ImGuiD3D12::renderImGui on back buffer `index`: resets that slot's allocator
     * and list, records the frame's commands (barrier PRESENT to RENDER_TARGET
     * first, barrier back last, on the slot's resource), closes the list and
     * submits it alone to the captured queue. No other slot changes. It faults
     * when the index is past the slot array or the slot's allocator or list is null.
     */
    method RenderImGui12(index: nat) returns (faulted: bool)
      requires SlotsSized() && commandQueue.Some?
      modifies this`trace, contexts
      ensures faulted <==> !RenderReady12(old(contexts[..]), index)
      ensures faulted ==> contexts[..] == old(contexts[..]) && trace == old(trace) + FaultEvents12(old(contexts[..]), index)
      ensures !faulted ==>
        && contexts[..] == old(contexts[..])[index := old(contexts[index]).(list := Some(FrameList(old(contexts[index]), HeapHandle(imguiHeap))))]
        && trace == old(trace) + RenderEvents12(old(contexts[index]), commandQueue.value, HeapHandle(imguiHeap))
      ensures trace == old(trace) + FrameEvents12(contexts[..], index, commandQueue.value, HeapHandle(imguiHeap))
    {
      if index >= contexts.Length {
        return true;
      }
      var ctx := contexts[index];
      if ctx.allocator.None? {
        return true;
      }
      trace := trace + [ResetAllocator(ctx.allocator.value)];
      if ctx.list.None? {
        return true;
      }
      var heap := HeapHandle(imguiHeap);
      var list := ctx.list.value.(closed := false, commands := []);
      list := Record(list, Barrier(ctx.resource, StatePresent, StateRenderTarget));
      list := Record(list, SetRenderTarget(ctx.descriptor));
      list := Record(list, SetDescriptorHeaps([heap]));
      list := Record(list, DrawOverlay);
      list := Record(list, Barrier(ctx.resource, StateRenderTarget, StatePresent));
      assert list.commands == FrameCommands(ctx.resource, ctx.descriptor, heap);
      list := list.(closed := true);
      contexts[index] := ctx.(list := Some(list));
      trace := trace + [Execute(commandQueue.value, [list.id], list.commands)];
      return false;
    }

    /**
     * ImGuiD3D12's Present hook. Without IDXGISwapChain3 it only calls through.
     * Otherwise, while the shared flag is false, it attempts initialisation: on
     * failure it calls through without rendering and the flag stays false (the
     * next frame retries); on success the flag becomes true. With the flag true it
     * renders, then calls through. Every path that returns calls the original
     * Present exactly once, last, with the same SyncInterval and Flags, and
     * returns its HRESULT unchanged; the one path that does not return is a fault
     * of renderImGui.
     */
    method PresentHook12(sc: SwapChain, syncInterval: nat, flags: nat, r: Init12Replies, originalHr: HResult)
      returns (out: HookResult)
      requires Valid() && PresentKey12 in originals
      modifies this`trace, this`imguiInitialized, this`device12, this`deferredAvailable, this`rendererType
      modifies this`backBufferCount12, this`contexts, this`imguiHeap, this`rtvHeap, contexts
      ensures Valid()
      ensures imguiInitialized == (old(imguiInitialized) || (sc.isSwapChain3 && InitResult12(r, |sc.buffers|)))
      ensures !sc.isSwapChain3 || old(imguiInitialized) || r.device.None? ==>
        Config12() == old(Config12()) && Reported() == old(Reported())
      ensures !sc.isSwapChain3 ==> (out == Returned(originalHr) && contexts[..] == old(contexts[..])
        && trace == old(trace) + [OriginalPresent(sc.id, syncInterval, flags)])
      ensures sc.isSwapChain3 && !old(imguiInitialized) && r.device.Some? ==>
        && Configured12(sc, r, old(imguiHeap), old(rtvHeap))
        && fresh(contexts)
        && forall i :: 0 <= i < contexts.Length ==>
             contexts[i] == InitThenFrame12(sc, r, i, imguiInitialized && out.Returned?, HeapHandle(imguiHeap))
      ensures sc.isSwapChain3 && (old(imguiInitialized) || r.device.None?) ==>
        contexts[..] == SteadyFrameSlots12(old(contexts[..]), sc.currentIndex, out.Returned?, HeapHandle(imguiHeap))
      ensures out.Faulted? <==> sc.isSwapChain3 && imguiInitialized && !RenderReady12(contexts[..], sc.currentIndex)
      ensures out.Returned? ==> out.hr == originalHr
      ensures out.Returned? && sc.isSwapChain3 && imguiInitialized ==>
        contexts[sc.currentIndex].list == Some(FrameList(contexts[sc.currentIndex], HeapHandle(imguiHeap)))
      ensures trace == old(trace)
        + (if sc.isSwapChain3 && !old(imguiInitialized) then InitAttemptEvents12(sc, r, coreWindow) else [])
        + (if sc.isSwapChain3 && imguiInitialized
           then FrameEvents12(contexts[..], sc.currentIndex, commandQueue.value, HeapHandle(imguiHeap)) else [])
        + (if out.Returned? then [OriginalPresent(sc.id, syncInterval, flags)] else [])
    {
      if !sc.isSwapChain3 {
        trace := trace + [OriginalPresent(sc.id, syncInterval, flags)];
        return Returned(originalHr);
      }
      out := PresentOnSwapChain3(sc, syncInterval, flags, r, originalHr);
    }

    /** The Present hook once QueryInterface for IDXGISwapChain3 succeeded: initialise if needed, render, call through. */
    method PresentOnSwapChain3(sc: SwapChain, syncInterval: nat, flags: nat, r: Init12Replies, originalHr: HResult)
      returns (out: HookResult)
      requires Valid() && PresentKey12 in originals && sc.isSwapChain3
      modifies this`trace, this`imguiInitialized, this`device12, this`deferredAvailable, this`rendererType
      modifies this`backBufferCount12, this`contexts, this`imguiHeap, this`rtvHeap, contexts
      ensures Valid()
      ensures imguiInitialized == (old(imguiInitialized) || InitResult12(r, |sc.buffers|))
      ensures old(imguiInitialized) || r.device.None? ==> Config12() == old(Config12()) && Reported() == old(Reported())
      ensures !old(imguiInitialized) && r.device.Some? ==>
        && Configured12(sc, r, old(imguiHeap), old(rtvHeap))
        && fresh(contexts)
        && forall i :: 0 <= i < contexts.Length ==>
             contexts[i] == InitThenFrame12(sc, r, i, imguiInitialized && out.Returned?, HeapHandle(imguiHeap))
      ensures old(imguiInitialized) || r.device.None? ==>
        contexts[..] == SteadyFrameSlots12(old(contexts[..]), sc.currentIndex, out.Returned?, HeapHandle(imguiHeap))
      ensures out.Faulted? <==> imguiInitialized && !RenderReady12(contexts[..], sc.currentIndex)
      ensures out.Returned? ==> out.hr == originalHr
      ensures out.Returned? && imguiInitialized ==>
        contexts[sc.currentIndex].list == Some(FrameList(contexts[sc.currentIndex], HeapHandle(imguiHeap)))
      ensures trace == old(trace)
        + (if !old(imguiInitialized) then InitAttemptEvents12(sc, r, coreWindow) else [])
        + (if imguiInitialized then FrameEvents12(contexts[..], sc.currentIndex, commandQueue.value, HeapHandle(imguiHeap)) else [])
        + (if out.Returned? then [OriginalPresent(sc.id, syncInterval, flags)] else [])
    {
      var call := OriginalPresent(sc.id, syncInterval, flags);
      EnsureInitialized12(sc, r);
      if !imguiInitialized {
        trace := trace + [call];
        return Returned(originalHr);
      }
      var faulted := RenderImGui12(sc.currentIndex);
      if faulted {
        return Faulted;
      }
      trace := trace + [call];
      return Returned(originalHr);
    }

    /**
     * The first step of ImGuiD3D12's Present hook once IDXGISwapChain3 is
     * available: while the shared flag is false, attempt initialisation and set
     * the flag when it returns true.
     */
    method EnsureInitialized12(sc: SwapChain, r: Init12Replies)
      requires Valid()
      modifies this`trace, this`imguiInitialized, this`device12, this`deferredAvailable, this`rendererType
      modifies this`backBufferCount12, this`contexts, this`imguiHeap, this`rtvHeap
      ensures Valid()
      ensures imguiInitialized == (old(imguiInitialized) || InitResult12(r, |sc.buffers|))
      ensures old(imguiInitialized) || r.device.None? ==> Config12() == old(Config12()) && Reported() == old(Reported())
      ensures contexts == old(contexts) || fresh(contexts)
      ensures !old(imguiInitialized) && r.device.Some? ==>
        Configured12(sc, r, old(imguiHeap), old(rtvHeap)) && fresh(contexts) &&
        SlotsAfterInit12(contexts, sc, r, InitSucceeds12(r, |sc.buffers|))
      ensures trace == old(trace) + (if old(imguiInitialized) then [] else InitAttemptEvents12(sc, r, coreWindow))
    {
      if !imguiInitialized {
        ghost var before := trace;
        imguiInitialized := InitializeBackend12(sc, r);
        if r.device.Some? && imguiInitialized {
          AppendAssoc(before, [ImGuiSetup], ViewCreations12(sc, r.rtvHeap.cpuStart, r.device.value.rtvIncrement, |sc.buffers|),
                      [BackendInit12(coreWindow, r.device.value.id, |sc.buffers|, r.imguiHeap.obj)]);
        }
      }
    }

    /**
     * ImGuiD3D12's ResizeBuffers hook: releaseRT, then the original ResizeBuffers
     * with the same arguments, then createRT over the resized buffers and the
     * count captured at initialisation (BufferCount is not consulted). It returns
     * the original HRESULT whether it succeeded or not. createRT dereferences the
     * device and the RTV heap, so before an initialisation created them the hook
     * faults after calling through.
     */
    method ResizeBuffersHook12(sc: SwapChain, bufferCount: nat, width: nat, height: nat, format: nat, swapChainFlags: nat,
                               buffersAfter: seq<Handle>, originalHr: HResult) returns (out: HookResult)
      requires Valid() && ResizeKey12 in originals
      modifies this`trace, contexts
      ensures Valid()
      ensures out == (if device12.Some? && rtvHeap.Some? then Returned(originalHr) else Faulted)
      ensures forall i :: 0 <= i < contexts.Length ==>
        contexts[i] == (if out.Returned?
                        then BoundContext(old(contexts[i]), sc.(buffers := buffersAfter), rtvHeap.value.cpuStart, device12.value.rtvIncrement, i)
                        else old(contexts[i]).(resource := None))
      ensures trace == old(trace) + Releases(Resources(old(contexts[..]))) +
        [OriginalResize(sc.id, bufferCount, width, height, format, swapChainFlags)] +
        (if out.Returned?
         then ViewCreations12(sc.(buffers := buffersAfter), rtvHeap.value.cpuStart, device12.value.rtvIncrement, backBufferCount12)
         else [])
    {
      ReleaseRT12();
      trace := trace + [OriginalResize(sc.id, bufferCount, width, height, format, swapChainFlags)];
      if device12.None? || rtvHeap.None? {
        return Faulted;
      }
      CreateRT12(sc.(buffers := buffersAfter));
      return Returned(originalHr);
    }

    // ----- ImGuiD3D11 -----

    /** ImGuiD3D11::createRT: every slot below the captured count gets the view created over back buffer i. */
    method CreateRT11(sc: SwapChain, created: nat -> Option<Handle>)
      requires SlotsSized() && device11.Some?
      modifies this`trace, views
      ensures Holds(views, created)
      ensures trace == old(trace) + ViewCreations11(sc, created, backBufferCount11)
    {
      var i: nat := 0;
      while i < backBufferCount11
        invariant i <= backBufferCount11
        invariant forall j :: 0 <= j < i ==> views[j] == created(j)
        invariant trace == old(trace) + ViewCreations11(sc, created, i)
      {
        var buffer := GetBuffer(sc, i);
        var view := created(i);
        trace := trace + [CreateView11(buffer, view)];
        views[i] := view;
        assert ViewCreations11(sc, created, i + 1) == ViewCreations11(sc, created, i) + [CreateView11(buffer, view)];
        i := i + 1;
      }
    }

    /** ImGuiD3D11::releaseRT: releases each non-null view once, in index order, and leaves every view null. */
    method ReleaseRT11()
      requires SlotsSized()
      modifies this`trace, views
      ensures forall i :: 0 <= i < views.Length ==> views[i].None?
      ensures trace == old(trace) + Releases(old(views[..]))
    {
      ghost var before := views[..];
      var i: nat := 0;
      while i < backBufferCount11
        invariant i <= backBufferCount11
        invariant forall j :: 0 <= j < i ==> views[j].None?
        invariant forall j :: i <= j < views.Length ==> views[j] == before[j]
        invariant trace == old(trace) + Releases(before[..i])
      {
        assert before[..i + 1][..i] == before[..i];
        if views[i].Some? {
          trace := trace + [Release(views[i].value)];
          views[i] := None;
        }
        i := i + 1;
      }
      assert before[..backBufferCount11] == before;
    }

    /**
     * ImGuiD3D11::initializeImguiBackend, which always returns true: turns the
     * deferred option off, reports "Direct3D 11", takes the buffer count from the
     * swap chain, allocates that many fresh view slots, captures the immediate
     * context, creates the render targets and initialises the overlay backend.
     */
    method InitializeBackend11(sc: SwapChain, r: Init11Replies) returns (ok: bool)
      requires SlotsSized() && device11.Some?
      modifies this`deferredAvailable, this`rendererType, this`trace, this`backBufferCount11, this`views, this`deviceContext
      ensures SlotsSized() && ok
      ensures !deferredAvailable && rendererType == Renderer11
      ensures backBufferCount11 == |sc.buffers| && fresh(views)
      ensures deviceContext == Some(r.immediateContext)
      ensures Holds(views, r.views)
      ensures trace == old(trace) + [ImGuiSetup] + ViewCreations11(sc, r.views, |sc.buffers|) +
        [BackendInit11(coreWindow, device11.value, r.immediateContext)]
    {
      deferredAvailable := false;
      rendererType := Renderer11;
      trace := trace + [ImGuiSetup];
      var n := |sc.buffers|;
      backBufferCount11 := n;
      // The source leaves the new entries uninitialised; createRT writes every one.
      views := new Option<Handle>[n];
      deviceContext := Some(r.immediateContext);
      CreateRT11(sc, r.views);
      trace := trace + [BackendInit11(coreWindow, device11.value, r.immediateContext)];
      return true;
    }

    /**
     * ImGuiD3D11::renderImGui on back buffer `index`: binds that slot's view on the
     * immediate context and draws. It faults when the index is past the view array.
     */
    method RenderImGui11(index: nat) returns (faulted: bool)
      requires SlotsSized() && deviceContext.Some?
      modifies this`trace
      ensures faulted <==> index >= views.Length
      ensures trace == old(trace) + (if faulted then [] else [Draw11(deviceContext.value, views[index])])
    {
      if index >= views.Length {
        return true;
      }
      trace := trace + [Draw11(deviceContext.value, views[index])];
      return false;
    }

    /**
     * ImGuiD3D11's Present hook: never initialises; renders only when IDXGISwapChain3
     * is available and the shared flag is already true; every path that returns
     * calls the original Present exactly once, last, with the same SyncInterval and
     * Flags, and returns its HRESULT unchanged.
     */
    method PresentHook11(sc: SwapChain, syncInterval: nat, flags: nat, originalHr: HResult) returns (out: HookResult)
      requires Valid() && PresentKey11 in originals
      modifies this`trace
      ensures Valid()
      ensures out == (if sc.isSwapChain3 && imguiInitialized && sc.currentIndex >= views.Length then Faulted else Returned(originalHr))
      ensures trace == old(trace) +
        (if sc.isSwapChain3 && imguiInitialized && out.Returned? then [Draw11(deviceContext.value, views[sc.currentIndex])] else []) +
        (if out.Returned? then [OriginalPresent(sc.id, syncInterval, flags)] else [])
      ensures out.Returned? ==> CallsThroughLast(old(trace), trace, OriginalPresent(sc.id, syncInterval, flags))
    {
      var call := OriginalPresent(sc.id, syncInterval, flags);
      if !sc.isSwapChain3 {
        trace := trace + [call];
        QuietThenCall(old(trace), [], call);
        return Returned(originalHr);
      }
      if imguiInitialized {
        var faulted := RenderImGui11(sc.currentIndex);
        if faulted {
          return Faulted;
        }
      }
      ghost var drawn := trace[|old(trace)|..];
      assert trace == old(trace) + drawn;
      trace := trace + [call];
      QuietThenCall(old(trace), drawn, call);
      return Returned(originalHr);
    }

    /**
     * ImGuiD3D11's ResizeBuffers hook: releaseRT, then the original ResizeBuffers
     * with the same arguments, then createRT over the resized buffers and the
     * captured count; returns the original HRESULT unchanged.
     */
    method ResizeBuffersHook11(sc: SwapChain, bufferCount: nat, width: nat, height: nat, format: nat, swapChainFlags: nat,
                               buffersAfter: seq<Handle>, created: nat -> Option<Handle>, originalHr: HResult)
      returns (hr: HResult)
      requires Valid() && ResizeKey11 in originals
      modifies this`trace, views
      ensures Valid() && hr == originalHr
      ensures Holds(views, created)
      ensures trace == old(trace) + Releases(old(views[..])) +
        [OriginalResize(sc.id, bufferCount, width, height, format, swapChainFlags)] +
        ViewCreations11(sc.(buffers := buffersAfter), created, backBufferCount11)
    {
      ReleaseRT11();
      trace := trace + [OriginalResize(sc.id, bufferCount, width, height, format, swapChainFlags)];
      CreateRT11(sc.(buffers := buffersAfter), created);
      return originalHr;
    }

    // ----- Factory interception -----

    /**
     * IDXGIFactory2_CreateSwapChainForCoreWindow_Hook. It records a non-null
     * window, then always calls the original creation first. On failure it does
     * nothing else. On success it classifies the device, Direct3D 12 before
     * Direct3D 11: for Direct3D 12 it captures the command queue and patches
     * Present and ResizeBuffers where the saved originals are still null (the
     * overlay initialises later, on Present); for Direct3D 11 it captures the
     * device, patches the same way, initialises at once and sets the shared flag
     * to the result; for neither it patches nothing. It returns the original HRESULT.
     */
    method CreateSwapChainForCoreWindowHook(device: DeviceObject, window: Option<Handle>, originalHr: HResult,
                                            sc: SwapChain, r11: Init11Replies) returns (hr: HResult)
      requires Valid()
      modifies this`coreWindow, this`trace, this`commandQueue, this`originals, this`device11, this`imguiInitialized
      modifies this`deferredAvailable, this`rendererType, this`backBufferCount11, this`views, this`deviceContext
      ensures Valid() && hr == originalHr
      ensures coreWindow == (if window.Some? then window else old(coreWindow))
      ensures Config12() == old(Config12())
      ensures originals == InstallAll(old(originals), CreationPatches(device, sc, originalHr))
      ensures commandQueue == if Chosen(device, originalHr) == Some(Explicit12) then Some(device.id) else old(commandQueue)
      ensures device11 == if Chosen(device, originalHr) == Some(Immediate11) then Some(device.id) else old(device11)
      ensures imguiInitialized == (old(imguiInitialized) || Chosen(device, originalHr) == Some(Immediate11))
      ensures Chosen(device, originalHr) != Some(Immediate11) ==>
        && Config11() == old(Config11()) && Reported() == old(Reported())
        && trace == old(trace) + [OriginalCreateSwapChain(device.id, window)] + PatchEvents(old(originals), CreationPatches(device, sc, originalHr))
      ensures Chosen(device, originalHr) == Some(Immediate11) ==>
        && Reported() == (Renderer11, false)
        && backBufferCount11 == |sc.buffers| && fresh(views) && deviceContext == Some(r11.immediateContext)
        && Holds(views, r11.views)
        && trace == old(trace) + [OriginalCreateSwapChain(device.id, window)] + PatchEvents(old(originals), CreationPatches(device, sc, originalHr)) +
             [ImGuiSetup] + ViewCreations11(sc, r11.views, |sc.buffers|) + [BackendInit11(coreWindow, device.id, r11.immediateContext)]
    {
      if window.Some? {
        coreWindow := window;
      }
      trace := trace + [OriginalCreateSwapChain(device.id, window)];
      SettleBackend(device, sc, r11, originalHr);
      return originalHr;
    }

    /**
     * What swap-chain creation does after the original call returned: nothing on
     * failure; otherwise capture and patch for the backend the device belongs to.
     */
    method SettleBackend(device: DeviceObject, sc: SwapChain, r11: Init11Replies, originalHr: HResult)
      requires Valid()
      modifies this`trace, this`commandQueue, this`originals, this`device11, this`imguiInitialized
      modifies this`deferredAvailable, this`rendererType, this`backBufferCount11, this`views, this`deviceContext
      ensures Valid()
      ensures Config12() == old(Config12())
      ensures originals == InstallAll(old(originals), CreationPatches(device, sc, originalHr))
      ensures commandQueue == if Chosen(device, originalHr) == Some(Explicit12) then Some(device.id) else old(commandQueue)
      ensures device11 == if Chosen(device, originalHr) == Some(Immediate11) then Some(device.id) else old(device11)
      ensures imguiInitialized == (old(imguiInitialized) || Chosen(device, originalHr) == Some(Immediate11))
      ensures Chosen(device, originalHr) != Some(Immediate11) ==>
        && Config11() == old(Config11()) && Reported() == old(Reported())
        && trace == old(trace) + PatchEvents(old(originals), CreationPatches(device, sc, originalHr))
      ensures Chosen(device, originalHr) == Some(Immediate11) ==>
        && Reported() == (Renderer11, false)
        && backBufferCount11 == |sc.buffers| && fresh(views) && deviceContext == Some(r11.immediateContext)
        && Holds(views, r11.views)
        && trace == old(trace) + PatchEvents(old(originals), CreationPatches(device, sc, originalHr)) +
             [ImGuiSetup] + ViewCreations11(sc, r11.views, |sc.buffers|) + [BackendInit11(coreWindow, device.id, r11.immediateContext)]
    {
      if Succeeded(originalHr) {
        if device.isCommandQueue {
          CaptureQueue12(device, sc);
        } else if device.isD3D11Device {
          CaptureDevice11(device, sc, r11);
        }
      }
      if Chosen(device, originalHr).None? {
        assert trace == old(trace) + [];
      }
    }

    /**
     * The Direct3D 12 branch of swap-chain creation: capture the queue and patch.
     * Under Direct3D 12 creation runs off the main thread and Present later runs
     * on the main thread, so initialisation waits for the first Present.
     */
    method CaptureQueue12(device: DeviceObject, sc: SwapChain)
      requires Valid()
      modifies this`commandQueue, this`originals, this`trace
      ensures Valid()
      ensures commandQueue == Some(device.id)
      ensures originals == InstallAll(old(originals), SwapChainAttempts(D3D12Hooks, sc))
      ensures trace == old(trace) + PatchEvents(old(originals), SwapChainAttempts(D3D12Hooks, sc))
    {
      commandQueue := Some(device.id);
      PatchSwapChain(D3D12Hooks, sc);
    }

    /**
     * The Direct3D 11 branch of swap-chain creation: capture the device, patch,
     * initialise at once and record the result. Under Direct3D 11 creation runs
     * on the main thread and every Present off it, so initialisation happens here.
     */
    method CaptureDevice11(device: DeviceObject, sc: SwapChain, r11: Init11Replies)
      requires Valid()
      modifies this`device11, this`originals, this`trace, this`imguiInitialized
      modifies this`deferredAvailable, this`rendererType, this`backBufferCount11, this`views, this`deviceContext
      ensures Valid()
      ensures device11 == Some(device.id) && imguiInitialized
      ensures originals == InstallAll(old(originals), SwapChainAttempts(D3D11Hooks, sc))
      ensures !deferredAvailable && rendererType == Renderer11
      ensures backBufferCount11 == |sc.buffers| && fresh(views) && deviceContext == Some(r11.immediateContext)
      ensures Holds(views, r11.views)
      ensures trace == old(trace) + PatchEvents(old(originals), SwapChainAttempts(D3D11Hooks, sc)) + [ImGuiSetup] +
        ViewCreations11(sc, r11.views, |sc.buffers|) + [BackendInit11(coreWindow, device.id, r11.immediateContext)]
    {
      ghost var hooked12 := SwapChainHooked(originals, D3D12Hooks);
      assert hooked12 ==> commandQueue.Some?;
      device11 := Some(device.id);
      PatchSwapChain(D3D11Hooks, sc);
      imguiInitialized := InitializeBackend11(sc, r11);
      assert SwapChainHooked(originals, D3D12Hooks) == hooked12;
    }

    /** The two guarded swap-chain patches of one namespace, Present then ResizeBuffers. */
    method PatchSwapChain(owner: HookOwner, sc: SwapChain)
      modifies this`originals, this`trace
      ensures originals == InstallAll(old(originals), SwapChainAttempts(owner, sc))
      ensures originals.Keys == old(originals).Keys + {HookKey(owner, PresentSlot), HookKey(owner, ResizeBuffersSlot)}
      ensures SwapChainHooked(originals, D3D12Hooks) == (SwapChainHooked(old(originals), D3D12Hooks) || owner == D3D12Hooks)
      ensures SwapChainHooked(originals, D3D11Hooks) == (SwapChainHooked(old(originals), D3D11Hooks) || owner == D3D11Hooks)
      ensures trace == old(trace) + PatchEvents(old(originals), SwapChainAttempts(owner, sc))
    {
      var attempts := SwapChainAttempts(owner, sc);
      PatchOnce(attempts[0]);
      PatchOnce(attempts[1]);
      InstallAllComposes(old(originals), [attempts[0]], [attempts[1]]);
      assert [attempts[0]] + [attempts[1]] == attempts;
    }

    /**
     * createDXGIFactory1Hook: always calls the original first and returns its
     * HRESULT; when IDXGIFactory2 was requested and creation succeeded, it patches
     * slot 16 where the saved original is still null and remembers the factory.
     */
    method CreateDXGIFactory1Hook(riid: Iid, originalHr: HResult, created: Factory) returns (hr: HResult)
      requires Valid()
      modifies this`trace, this`originals, this`factory
      ensures Valid() && hr == originalHr
      ensures riid == IDXGIFactory2 && Succeeded(originalHr) ==>
        && originals == InstallAll(old(originals), [Attempt(FactoryKey, created.createSwapChainEntry)])
        && factory == Some(created.id)
        && trace == old(trace) + [OriginalCreateFactory(riid)] +
             PatchEvents(old(originals), [Attempt(FactoryKey, created.createSwapChainEntry)])
      ensures !(riid == IDXGIFactory2 && Succeeded(originalHr)) ==>
        originals == old(originals) && factory == old(factory) && trace == old(trace) + [OriginalCreateFactory(riid)]
    {
      trace := trace + [OriginalCreateFactory(riid)];
      if riid == IDXGIFactory2 && Succeeded(originalHr) {
        PatchOnce(Attempt(FactoryKey, created.createSwapChainEntry));
        assert originals == InstallOnce(old(originals), Attempt(FactoryKey, created.createSwapChainEntry));
        factory := Some(created.id);
      }
      return originalHr;
    }
  }

  /** Every slot below a fully created prefix lies in a fully created prefix too. */
  lemma SlotsCreatedPrefixes(r: Init12Replies, i: nat)
    requires SlotsCreated(r, i)
    ensures forall j :: 0 <= j <= i ==> SlotsCreated(r, j)
  {
  }

  /** Once slot i fails, it and every slot before it are the created prefix, and no longer prefix is created. */
  lemma FirstFailedSlot(r: Init12Replies, i: nat)
    requires SlotsCreated(r, i) && !SlotCreated(r, i)
    ensures forall j :: 0 <= j <= i ==> SlotsCreated(r, j)
    ensures forall j :: i < j ==> !SlotsCreated(r, j)
  {
  }
}
