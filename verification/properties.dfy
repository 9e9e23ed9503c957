/**
 * Properties of the hook layer that relate several operations, stated over the
 * event sequences the hooks' contracts name: every returning Present and every
 * ResizeBuffers calls the host's original exactly once, a frame submits exactly
 * the commands that bracket the back buffer's render-target window, render
 * targets never share a descriptor, releasing twice releases nothing, and a
 * second swap-chain creation patches nothing.
 */
module HookProperties {
  import opened Types
  import opened Trace
  import opened SlotRelease
  import opened Descriptors
  import opened Recording
  import opened HookRegistry
  import opened ImGuiHooks

  /** A Direct3D 12 initialisation attempt neither calls the host's originals nor submits drawing. */
  lemma InitAttemptIsQuiet12(sc: SwapChain, r: Init12Replies, window: Option<Handle>)
    ensures Quiet(InitAttemptEvents12(sc, r, window))
  {
    if r.device.Some? {
      var views := ViewCreations12(sc, r.rtvHeap.cpuStart, r.device.value.rtvIncrement, |sc.buffers|);
      var last := [BackendInit12(window, r.device.value.id, |sc.buffers|, r.imguiHeap.obj)];
      ViewCreationsAreQuiet(sc, r.rtvHeap.cpuStart, r.device.value.rtvIncrement, _ => None, |sc.buffers|);
      QuietConcat([ImGuiSetup], views);
      QuietConcat([ImGuiSetup] + views, last);
    }
  }

  /**
   * A Direct3D 12 frame never calls the host's originals. It submits exactly
   * when the slot is ready, and then its last event submits the slot's list
   * alone, holding the frame's commands for the slot's back buffer.
   */
  lemma FrameEventsShape12(cs: seq<BackBufferContext>, index: nat, queue: Handle, heap: Option<Handle>)
    ensures NoOriginalCalls(FrameEvents12(cs, index, queue, heap))
    ensures NoSubmissions(FrameEvents12(cs, index, queue, heap)) <==> !RenderReady12(cs, index)
    ensures RenderReady12(cs, index) ==>
      var es := FrameEvents12(cs, index, queue, heap);
      es[|es| - 1] == Execute(queue, [cs[index].list.value.id], FrameCommands(cs[index].resource, cs[index].descriptor, heap))
  {
    var es := FrameEvents12(cs, index, queue, heap);
    if RenderReady12(cs, index) {
      assert es[1].IsSubmission();
    }
  }

  /**
   * What a rendered frame submits is a valid use of the back buffer: from
   * PRESENT it is drawn to only as a render target and handed back in PRESENT.
   */
  lemma SubmittedFrameRestoresPresent(cs: seq<BackBufferContext>, index: nat, queue: Handle, heap: Option<Handle>)
    requires RenderReady12(cs, index)
    ensures var e := FrameEvents12(cs, index, queue, heap)[1];
      && e.Execute?
      && Track(StatePresent, cs[index].resource, e.commands) == Some(StatePresent)
      && WritesAsRenderTarget(StatePresent, cs[index].resource, e.commands)
  {
    FrameRestoresPresent(StatePresent, cs[index].resource, cs[index].descriptor, heap);
  }

  /**
   * A Present hook that returns appended quiet initialisation events, a frame
   * that calls no original and the original Present: it called the original
   * exactly once, last.
   */
  lemma {:induction false} PresentCallsOriginalOnce(before: seq<Event>, attempt: seq<Event>, frame: seq<Event>, call: Event)
    requires call.IsOriginalCall()
    requires NoOriginalCalls(attempt) && NoOriginalCalls(frame)
    ensures CallsThroughLast(before, before + attempt + frame + [call], call)
    ensures OriginalCallCount((before + attempt + frame + [call])[|before|..]) == 1
  {
    QuietConcat(attempt, frame);
    QuietThenCall(before, attempt + frame, call);
    assert before + (attempt + frame) + [call] == before + attempt + frame + [call];
    CallsThroughLastIsExactlyOnce(before, before + attempt + frame + [call], call);
  }

  /**
   * Every Present that ImGuiD3D12's hook returns from calls the original Present
   * exactly once, last: whatever initialisation attempt and frame precede it.
   */
  lemma PresentHook12CallsOriginalOnce(before: seq<Event>, sc: SwapChain, r: Init12Replies, window: Option<Handle>,
                                       attempted: bool, rendered: bool, cs: seq<BackBufferContext>, queue: Handle,
                                       heap: Option<Handle>, syncInterval: nat, flags: nat)
    ensures var call := OriginalPresent(sc.id, syncInterval, flags);
      var after := before
        + (if attempted then InitAttemptEvents12(sc, r, window) else [])
        + (if rendered then FrameEvents12(cs, sc.currentIndex, queue, heap) else [])
        + [call];
      CallsThroughLast(before, after, call) && OriginalCallCount(after[|before|..]) == 1
  {
    InitAttemptIsQuiet12(sc, r, window);
    FrameEventsShape12(cs, sc.currentIndex, queue, heap);
    PresentCallsOriginalOnce(before,
      if attempted then InitAttemptEvents12(sc, r, window) else [],
      if rendered then FrameEvents12(cs, sc.currentIndex, queue, heap) else [],
      OriginalPresent(sc.id, syncInterval, flags));
  }

  /**
   * A ResizeBuffers hook's events, releases then the original then view
   * creations, call the original exactly once, and neither the releases nor
   * the creations submit drawing.
   */
  lemma {:induction false} ResizeCallsOriginalOnce(entries: seq<Option<Handle>>, call: Event, creations: seq<Event>)
    requires call.IsOriginalCall()
    requires forall i :: 0 <= i < |creations| ==> creations[i].CreateView12? || creations[i].CreateView11?
    ensures OriginalCallCount(Releases(entries) + [call] + creations) == 1
    ensures NoSubmissions(Releases(entries)) && NoSubmissions(creations)
  {
    ReleasesOnlyRelease(entries);
    QuietCountsNone(Releases(entries));
    QuietCountsNone(creations);
    CountAppend(Releases(entries), [call]);
    CountAppend(Releases(entries) + [call], creations);
    assert [call][..0] == [];
  }

  /** ImGuiD3D12's ResizeBuffers hook calls the original ResizeBuffers exactly once, whether or not it recreates views. */
  lemma ResizeHook12CallsOriginalOnce(cs: seq<BackBufferContext>, sc: SwapChain, heapStart: nat, increment: nat, n: nat,
                                      recreated: bool, bufferCount: nat, width: nat, height: nat, format: nat, flags: nat)
    ensures OriginalCallCount(Releases(Resources(cs)) + [OriginalResize(sc.id, bufferCount, width, height, format, flags)]
      + (if recreated then ViewCreations12(sc, heapStart, increment, n) else [])) == 1
  {
    ResizeCallsOriginalOnce(Resources(cs), OriginalResize(sc.id, bufferCount, width, height, format, flags),
      if recreated then ViewCreations12(sc, heapStart, increment, n) else []);
  }

  /** ImGuiD3D11's ResizeBuffers hook calls the original ResizeBuffers exactly once. */
  lemma ResizeHook11CallsOriginalOnce(views: seq<Option<Handle>>, sc: SwapChain, created: nat -> Option<Handle>, n: nat,
                                      bufferCount: nat, width: nat, height: nat, format: nat, flags: nat)
    ensures OriginalCallCount(Releases(views) + [OriginalResize(sc.id, bufferCount, width, height, format, flags)]
      + ViewCreations11(sc, created, n)) == 1
  {
    ResizeCallsOriginalOnce(views, OriginalResize(sc.id, bufferCount, width, height, format, flags),
      ViewCreations11(sc, created, n));
  }

  /**
   * With a positive RTV increment, the views a createRT pass creates sit at
   * pairwise distinct descriptors, all inside the heap's first n entries.
   */
  lemma ViewsDoNotOverlap12(sc: SwapChain, heapStart: nat, increment: nat, n: nat, i: nat, j: nat)
    requires increment > 0 && i < n && j < n && i != j
    ensures ViewCreations12(sc, heapStart, increment, n)[i].descriptor != ViewCreations12(sc, heapStart, increment, n)[j].descriptor
    ensures heapStart <= ViewCreations12(sc, heapStart, increment, n)[i].descriptor
    ensures ViewCreations12(sc, heapStart, increment, n)[i].descriptor + increment <= DescriptorAt(heapStart, increment, n)
  {
    DescriptorsDisjointAndInHeap(heapStart, increment, n, i, j);
  }

  /**
   * On a swap chain whose back buffers are distinct, the slots createRT binds
   * hold no live buffer twice, so the releaseRT that follows releases every
   * buffer at most once.
   */
  lemma {:induction false} BoundSlotsReleasedOnce(cs: seq<BackBufferContext>, sc: SwapChain, heapStart: nat, increment: nat)
    requires forall i, j :: 0 <= i < j < |sc.buffers| ==> sc.buffers[i] != sc.buffers[j]
    ensures NoRepeats(Releases(Resources(seq(|cs|, i requires 0 <= i < |cs| => BoundContext(cs[i], sc, heapStart, increment, i)))))
  {
    var bound := seq(|cs|, i requires 0 <= i < |cs| => BoundContext(cs[i], sc, heapStart, increment, i));
    var rs := Resources(bound);
    assert LiveDistinct(rs) by {
      forall i, j | 0 <= i < j < |rs| && rs[i].Some? ensures rs[i] != rs[j] {
        assert rs[i] == GetBuffer(sc, i) && rs[j] == GetBuffer(sc, j);
      }
    }
    ReleasesNoPointerTwice(rs);
  }

  /** After releaseRT every resource is null, so a second releaseRT releases nothing. */
  lemma {:induction false} SecondReleaseRTIsNoop(cs: seq<BackBufferContext>)
    ensures Releases(Resources(seq(|cs|, i requires 0 <= i < |cs| => cs[i].(resource := None)))) == []
  {
    var released := seq(|cs|, i requires 0 <= i < |cs| => cs[i].(resource := None));
    ReleasesOfNullIsEmpty(Resources(released));
  }

  /**
   * The guards make patching idempotent: repeating the same attempts changes no
   * saved original and patches nothing, so a second swap chain of the same
   * backend leaves the vtables alone.
   */
  lemma {:induction false} SecondPatchingIsNoop(m: Registry, attempts: seq<Attempt>)
    ensures InstallAll(InstallAll(m, attempts), attempts) == InstallAll(m, attempts)
    ensures PatchEvents(InstallAll(m, attempts), attempts) == []
  {
    InstallAllKeeps(m, attempts);
    AlreadySavedIsNoop(InstallAll(m, attempts), attempts);
  }

  /** Attempts whose keys are all saved already change nothing. */
  lemma {:induction false} AlreadySavedIsNoop(m: Registry, attempts: seq<Attempt>)
    requires forall i :: 0 <= i < |attempts| ==> attempts[i].key in m
    ensures InstallAll(m, attempts) == m
    ensures PatchEvents(m, attempts) == []
    decreases |attempts|
  {
    if attempts != [] {
      assert InstallOnce(m, attempts[0]) == m;
      assert forall i :: 0 <= i < |attempts[1..]| ==> attempts[1..][i].key == attempts[i + 1].key;
      AlreadySavedIsNoop(m, attempts[1..]);
    }
  }
}
