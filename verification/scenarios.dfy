/**
 * End-to-end runs of the hook layer on a fresh HookState: the sequences of host
 * calls the overlay sees in practice, each with what it must observe.
 */
module HookScenarios {
  import opened Types
  import opened Trace
  import opened SlotRelease
  import opened Descriptors
  import opened Recording
  import opened HookRegistry
  import opened ImGuiHooks

  /** A swap chain with back buffers 10, 11 and 12, showing buffer `current`. */
  function ThreeBufferChain(current: nat): SwapChain
  {
    SwapChain(2, true, [10, 11, 12], current, 80, 81)
  }

  /** Direct3D 12 replies in which every creation succeeds and the RTV increment is 32. */
  function Healthy12(): Init12Replies
  {
    Init12Replies(Some(D3D12Device(7, 32)), (i: nat) => Reply(S_OK, 100 + i), (i: nat) => Reply(S_OK, 200 + i), _ => S_OK,
                  HeapReply(S_OK, 300, 0), HeapReply(S_OK, 301, 4096))
  }

  /** Swap-chain creation on an ID3D11Device with two back buffers, whose views come back as 40 and 41. */
  method CreatedOnDevice11() returns (s: HookState, sc: SwapChain, created: HResult)
    ensures fresh(s) && s.Valid() && sc == SwapChain(2, true, [10, 11], 0, 80, 81)
    ensures created == S_OK && PresentKey11 in s.originals && s.imguiInitialized
    ensures s.RendererType() == Renderer11 && !s.deferredAvailable
    ensures s.deviceContext == Some(30) && s.views[..] == [Some(40), Some(41)]
  {
    s := new HookState(true);
    sc := SwapChain(2, true, [10, 11], 0, 80, 81);
    created := s.CreateSwapChainForCoreWindowHook(DeviceObject(1, false, true), Some(5), S_OK, sc,
                                                  Init11Replies(30, (i: nat) => Some(40 + i)));
    InstallAllKeeps(map[], SwapChainAttempts(D3D11Hooks, sc));
    assert SwapChainAttempts(D3D11Hooks, sc)[0].key == PresentKey11;
  }

  /**
   * A Direct3D 11 game with two back buffers: swap-chain creation picks the
   * Direct3D 11 backend at once, reports "Direct3D 11" without deferred
   * rendering and creates two views; the first Present draws the overlay
   * through view 40 and passes the original's HRESULT through.
   */
  method Direct3D11Session()
    returns (created: HResult, renderer: string, deferred: bool, views: seq<Option<Handle>>, presented: HookResult, drawn: Event)
    ensures created == S_OK && renderer == Renderer11 && !deferred
    ensures views == [Some(40), Some(41)]
    ensures presented == Returned(S_OK) && drawn == Draw11(30, Some(40))
  {
    var s, sc;
    s, sc, created := CreatedOnDevice11();
    renderer := s.RendererType();
    deferred := s.deferredAvailable;
    views := s.views[..];
    presented := s.PresentHook11(sc, 1, 0, S_OK);
    drawn := s.trace[|s.trace| - 2];
  }

  /** Swap-chain creation on a command queue: only the queue is captured and both Direct3D 12 slots are patched. */
  method CreatedOnQueue12() returns (s: HookState, sc: SwapChain, hr: HResult)
    ensures fresh(s) && s.Valid() && fresh(s.contexts)
    ensures sc == ThreeBufferChain(0) && hr == S_OK
    ensures PresentKey12 in s.originals && ResizeKey12 in s.originals
    ensures s.commandQueue == Some(9) && !s.imguiInitialized && s.contexts.Length == 0
  {
    s := new HookState(false);
    sc := ThreeBufferChain(0);
    hr := s.CreateSwapChainForCoreWindowHook(DeviceObject(9, true, false), Some(5), S_OK, sc, Init11Replies(0, _ => None));
    InstallAllKeeps(map[], SwapChainAttempts(D3D12Hooks, sc));
    assert SwapChainAttempts(D3D12Hooks, sc)[0].key == PresentKey12;
    assert SwapChainAttempts(D3D12Hooks, sc)[1].key == ResizeKey12;
  }

  /** The state after the first Direct3D 12 Present initialised the overlay over three back buffers and rendered slot 0. */
  method Initialized12() returns (s: HookState, sc: SwapChain, first: HookResult)
    ensures fresh(s) && s.Valid() && sc == ThreeBufferChain(0) && first == Returned(S_OK)
    ensures PresentKey12 in s.originals && ResizeKey12 in s.originals && s.imguiInitialized
    ensures s.RendererType() == Renderer12 && s.deferredAvailable
    ensures s.device12 == Some(D3D12Device(7, 32))
    ensures s.imguiHeap == Some(DescriptorHeap(300, CbvSrvUav, 3, true, 0))
    ensures s.rtvHeap == Some(DescriptorHeap(301, Rtv, 3, false, 4096))
    ensures fresh(s.contexts) && s.contexts.Length == 3
    ensures forall i :: 0 <= i < 3 ==> s.contexts[i] == InitThenFrame12(sc, Healthy12(), i, true, Some(300))
    ensures Resources(s.contexts[..]) == [Some(10), Some(11), Some(12)]
  {
    var hr;
    s, sc, hr := CreatedOnQueue12();
    var r := Healthy12();
    assert SlotsCreated(r, 3);
    first := s.PresentHook12(sc, 1, 0, r, S_OK);
  }

  /**
   * Slot i after the first Present over the healthy replies: allocator 100 + i,
   * a closed list 200 + i (holding the frame on slot 0, empty elsewhere), back
   * buffer 10 + i and descriptor i of the RTV heap at 4096.
   */
  lemma HealthySlot12(i: nat)
    requires i < 3
    ensures InitThenFrame12(ThreeBufferChain(0), Healthy12(), i, true, Some(300)) ==
      BackBufferContext(Some(100 + i),
                        Some(CommandList(200 + i, true, if i == 0 then FrameCommands(Some(10), 4096, Some(300)) else [])),
                        Some(10 + i), 4096 + 32 * i)
  {
    assert SlotsCreated(Healthy12(), 3);
    assert SlotsCreated(Healthy12(), i);
  }

  /**
   * A Direct3D 12 game with three back buffers: the first Present initialises
   * the overlay (deferred rendering on, "Direct3D 12", heaps of three
   * descriptors, three slots each with an allocator and a closed list bound to
   * its back buffer), records the frame into slot 0 and passes the original's
   * HRESULT through.
   */
  method Direct3D12FirstPresent()
    returns (first: HookResult, renderer: string, deferred: bool, slots: seq<BackBufferContext>, heapSize: nat, rtvSize: nat)
    ensures first == Returned(S_OK) && renderer == Renderer12 && deferred
    ensures heapSize == 3 && rtvSize == 3 && |slots| == 3
    ensures forall i :: 0 <= i < 3 ==>
      && slots[i].allocator == Some(100 + i) && slots[i].list.Some? && slots[i].list.value.closed
      && slots[i].resource == Some(10 + i) && slots[i].descriptor == 4096 + 32 * i
    ensures slots[0].list.value.commands == FrameCommands(Some(10), 4096, Some(300))
  {
    var s, sc;
    s, sc, first := Initialized12();
    renderer := s.RendererType();
    deferred := s.deferredAvailable;
    slots := s.contexts[..];
    heapSize := s.imguiHeap.value.numDescriptors;
    rtvSize := s.rtvHeap.value.numDescriptors;
    HealthySlot12(0);
    HealthySlot12(1);
    HealthySlot12(2);
  }

  /**
   * The second Direct3D 12 Present, on back buffer 1: nothing is initialised
   * again, slot 1's list is re-recorded with the frame for back buffer 11 at
   * descriptor 4128, and slots 0 and 2 keep what the first Present left.
   */
  method Direct3D12SecondFrame() returns (second: HookResult, before: seq<BackBufferContext>, after: seq<BackBufferContext>)
    ensures second == Returned(S_OK) && |before| == 3 && |after| == 3
    ensures after[0] == before[0] && after[2] == before[2]
    ensures after[1] == before[1].(list := Some(CommandList(201, true, FrameCommands(Some(11), 4128, Some(300)))))
  {
    var s, sc, first := Initialized12();
    HealthySlot12(1);
    before := s.contexts[..];
    second := s.PresentHook12(sc.(currentIndex := 1), 1, 0, Healthy12(), S_OK);
    after := s.contexts[..];
  }

  /** Direct3D 12 replies in which GetDevice on the swap chain fails. */
  function NoDevice12(): Init12Replies
  {
    Healthy12().(device := None)
  }

  /** Direct3D 12 replies in which the second command allocator cannot be created. */
  function AllocatorFails12(): Init12Replies
  {
    Healthy12().(allocators := (i: nat) => if i == 1 then Reply(-2147024882, 0) else Reply(S_OK, 100 + i))
  }

  /** Releasing the three back buffers of the initialised chain releases each once, in order. */
  lemma OldBuffersReleased()
    ensures Releases([Some(10), Some(11), Some(12)]) == [Release(10), Release(11), Release(12)]
  {
    var rs: seq<Option<Handle>> := [Some(10), Some(11), Some(12)];
    assert rs[..2] == [Some(10), Some(11)] && rs[..2][..1] == [Some(10)] && rs[..2][..1][..0] == [];
    assert Releases([Some(10)]) == [Release(10)];
    assert Releases([Some(10), Some(11)]) == [Release(10), Release(11)];
  }

  /** createRT over the captured count of three, on a chain that now has two buffers, at RTV increment 32. */
  lemma NewViewsAfterResize(sc: SwapChain)
    ensures ViewCreations12(sc.(buffers := [20, 21]), 4096, 32, 3) ==
      [CreateView12(Some(20), 4096), CreateView12(Some(21), 4128), CreateView12(None, 4160)]
  {
  }

  /**
   * ResizeBuffers from three back buffers to two: the hook releases the three
   * old back buffers, then calls the original, passes its HRESULT through and
   * recreates three render targets at descriptors 4096, 4128 and 4160, the
   * third over a null back buffer, because it reuses the count captured at
   * initialisation.
   */
  method Direct3D12ResizeToTwo() returns (resized: HookResult, released: seq<Event>, called: Event, recreated: seq<Event>)
    ensures resized == Returned(S_OK)
    ensures released == [Release(10), Release(11), Release(12)]
    ensures called == OriginalResize(2, 2, 1920, 1080, 0, 0)
    ensures recreated == [CreateView12(Some(20), 4096), CreateView12(Some(21), 4128), CreateView12(None, 4160)]
  {
    var s, sc, first := Initialized12();
    OldBuffersReleased();
    NewViewsAfterResize(sc);
    resized := s.ResizeBuffersHook12(sc, 2, 1920, 1080, 0, 0, [20, 21], S_OK);
    released := s.trace[|s.trace| - 7..|s.trace| - 4];
    called := s.trace[|s.trace| - 4];
    recreated := s.trace[|s.trace| - 3..];
  }

  /**
   * GetDevice failing on the first Direct3D 12 Present: initialisation reports
   * success with no slots, so the flag is set and rendering slot 0 faults.
   */
  method Direct3D12WithoutDevice() returns (first: HookResult, initialized: bool)
    ensures first == Faulted && initialized
  {
    var s, sc, hr := CreatedOnQueue12();
    first := s.PresentHook12(sc, 1, 0, NoDevice12(), S_OK);
    initialized := s.imguiInitialized;
  }

  /** The first Direct3D 12 Present, with the second allocator failing. */
  method FailedFirstPresent12() returns (s: HookState, sc: SwapChain, first: HookResult, events: seq<Event>)
    ensures fresh(s) && s.Valid() && fresh(s.contexts) && sc == ThreeBufferChain(0)
    ensures PresentKey12 in s.originals && !s.imguiInitialized && s.commandQueue == Some(9)
    ensures first == Returned(S_OK) && events == [ImGuiSetup, OriginalPresent(2, 1, 0)]
  {
    var hr;
    s, sc, hr := CreatedOnQueue12();
    var failing := AllocatorFails12();
    assert !SlotCreated(failing, 1);
    var before := |s.trace|;
    first := s.PresentHook12(sc, 1, 0, failing, S_OK);
    events := s.trace[before..];
  }

  /**
   * A failing allocator creation on the first Present leaves the overlay
   * uninitialised and the frame unrendered, and the original Present still
   * runs; the next Present tries again and, with every creation succeeding,
   * submits the frame recorded into slot 0 before calling the original.
   */
  method Direct3D12RetriesAfterFailure()
    returns (first: HookResult, afterFirst: bool, firstEvents: seq<Event>, second: HookResult, afterSecond: bool, secondEvents: seq<Event>)
    ensures first == Returned(S_OK) && !afterFirst
    ensures firstEvents == [ImGuiSetup, OriginalPresent(2, 1, 0)]
    ensures second == Returned(S_OK) && afterSecond
    ensures |secondEvents| >= 2 && secondEvents[|secondEvents| - 1] == OriginalPresent(2, 1, 0)
    ensures secondEvents[|secondEvents| - 2] == Execute(9, [200], FrameCommands(Some(10), 4096, Some(300)))
  {
    var s, sc;
    s, sc, first, firstEvents := FailedFirstPresent12();
    afterFirst := s.imguiInitialized;
    var r := Healthy12();
    assert SlotsCreated(r, 3);
    var before := |s.trace|;
    second := s.PresentHook12(sc, 1, 0, r, S_OK);
    afterSecond := s.imguiInitialized;
    HealthySlot12(0);
    assert s.contexts[0] == InitThenFrame12(sc, r, 0, true, Some(300));
    secondEvents := s.trace[before..];
  }

  /** Swap-chain creation on a device that is neither a command queue nor an ID3D11Device patches nothing and reports no renderer. */
  method UnsupportedDevice() returns (hr: HResult, patched: Registry, renderer: string)
    ensures hr == S_OK && patched == map[] && renderer == ""
  {
    var s := new HookState(true);
    hr := s.CreateSwapChainForCoreWindowHook(DeviceObject(3, false, false), None, S_OK, ThreeBufferChain(0), Init11Replies(0, _ => None));
    patched := s.originals;
    renderer := s.RendererType();
  }

  /** A failed original creation leaves every vtable alone, even on a command queue. */
  method FailedCreation() returns (hr: HResult, patched: Registry)
    ensures hr == -2147024882 && patched == map[]
  {
    var s := new HookState(true);
    hr := s.CreateSwapChainForCoreWindowHook(DeviceObject(9, true, false), None, -2147024882, ThreeBufferChain(0), Init11Replies(0, _ => None));
    patched := s.originals;
  }
}
