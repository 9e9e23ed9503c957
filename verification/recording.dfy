/**
 * The command sequence ImGuiD3D12::renderImGui records each frame, and the
 * resource-state bookkeeping that shows its two barriers cancel out: a back
 * buffer that starts the frame presentable is written only while it is a
 * render target and ends the frame presentable again.
 */
module Recording {
  import opened Types

  /**
   * One frame's commands for the back buffer `resource` whose view is at
   * `target`: barrier PRESENT to RENDER_TARGET, bind the view, bind the overlay's
   * shader-visible heap, draw, barrier back to PRESENT.
   */
  function FrameCommands(resource: Option<Handle>, target: nat, heap: Option<Handle>): seq<Command>
  {
    [ Barrier(resource, StatePresent, StateRenderTarget),
      SetRenderTarget(target),
      SetDescriptorHeaps([heap]),
      DrawOverlay,
      Barrier(resource, StateRenderTarget, StatePresent) ]
  }

  /** Appends one command to an open list. */
  function Record(list: CommandList, c: Command): (r: CommandList)
    ensures r.id == list.id && r.closed == list.closed
    ensures r.commands == list.commands + [c]
  {
    list.(commands := list.commands + [c])
  }

  /**
   * The state of `resource` after one command from state `s`, or None when the
   * command is a barrier on it whose before-state is not `s` (an invalid transition).
   */
  function Step(s: ResourceState, resource: Option<Handle>, c: Command): Option<ResourceState>
  {
    if c.Barrier? && c.resource == resource then
      (if c.before == s then Some(c.after) else None)
    else Some(s)
  }

  /** The state of `resource` after executing `cmds` from state `s`, or None after an invalid transition. */
  function Track(s: ResourceState, resource: Option<Handle>, cmds: seq<Command>): Option<ResourceState>
    decreases |cmds|
  {
    if cmds == [] then Some(s)
    else
      var next := Step(s, resource, cmds[0]);
      if next.None? then None else Track(next.value, resource, cmds[1..])
  }

  predicate WritesTarget(c: Command)
  {
    c.SetRenderTarget? || c.DrawOverlay?
  }

  /** Whether every command that writes the bound target runs while `resource` is a render target. */
  function WritesAsRenderTarget(s: ResourceState, resource: Option<Handle>, cmds: seq<Command>): bool
    decreases |cmds|
  {
    if cmds == [] then true
    else
      var next := Step(s, resource, cmds[0]);
      && (WritesTarget(cmds[0]) ==> s == StateRenderTarget)
      && (next.None? || WritesAsRenderTarget(next.value, resource, cmds[1..]))
  }

  ghost predicate NoBarrierOn(resource: Option<Handle>, cmds: seq<Command>)
  {
    forall i :: 0 <= i < |cmds| ==> !(cmds[i].Barrier? && cmds[i].resource == resource)
  }

  /** Tracking a concatenation tracks the first part, then the second from where the first ended. */
  lemma {:induction false} TrackAppend(s: ResourceState, resource: Option<Handle>, a: seq<Command>, b: seq<Command>)
    ensures Track(s, resource, a + b) ==
      (if Track(s, resource, a).None? then None else Track(Track(s, resource, a).value, resource, b))
    decreases |a|
  {
    if a != [] {
      assert (a + b)[0] == a[0];
      assert (a + b)[1..] == a[1..] + b;
      var next := Step(s, resource, a[0]);
      if next.Some? {
        TrackAppend(next.value, resource, a[1..], b);
      }
    } else {
      assert a + b == b;
    }
  }

  /** The write check of a concatenation splits the same way. */
  lemma {:induction false} WritesAppend(s: ResourceState, resource: Option<Handle>, a: seq<Command>, b: seq<Command>)
    ensures WritesAsRenderTarget(s, resource, a + b) ==
      (WritesAsRenderTarget(s, resource, a) &&
       (Track(s, resource, a).None? || WritesAsRenderTarget(Track(s, resource, a).value, resource, b)))
    decreases |a|
  {
    if a != [] {
      assert (a + b)[0] == a[0];
      assert (a + b)[1..] == a[1..] + b;
      var next := Step(s, resource, a[0]);
      if next.Some? {
        WritesAppend(next.value, resource, a[1..], b);
      }
    } else {
      assert a + b == b;
    }
  }

  /** Commands that place no barrier on `resource` leave its state alone. */
  lemma {:induction false} TrackWithoutBarriers(s: ResourceState, resource: Option<Handle>, cmds: seq<Command>)
    requires NoBarrierOn(resource, cmds)
    ensures Track(s, resource, cmds) == Some(s)
    ensures s == StateRenderTarget ==> WritesAsRenderTarget(s, resource, cmds)
    decreases |cmds|
  {
    if cmds != [] {
      assert NoBarrierOn(resource, cmds[1..]) by {
        forall i | 0 <= i < |cmds[1..]| ensures !(cmds[1..][i].Barrier? && cmds[1..][i].resource == resource) {
          assert cmds[1..][i] == cmds[i + 1];
        }
      }
      TrackWithoutBarriers(s, resource, cmds[1..]);
    }
  }

  /** A single barrier on `resource`. */
  lemma OneBarrier(s: ResourceState, resource: Option<Handle>, before: ResourceState, after: ResourceState)
    ensures Track(s, resource, [Barrier(resource, before, after)]) == (if s == before then Some(after) else None)
    ensures WritesAsRenderTarget(s, resource, [Barrier(resource, before, after)])
  {
    assert [Barrier(resource, before, after)][1..] == [];
  }

  /**
   * The frame's transitions cancel out, and only from PRESENT: recorded on a back
   * buffer in PRESENT it is valid and leaves the buffer in PRESENT; from any other
   * state its first barrier is invalid.
   */
  lemma {:induction false} FrameRestoresPresent(s: ResourceState, resource: Option<Handle>, target: nat, heap: Option<Handle>)
    ensures Track(s, resource, FrameCommands(resource, target, heap)) ==
      (if s == StatePresent then Some(StatePresent) else None)
    ensures s == StatePresent ==> WritesAsRenderTarget(s, resource, FrameCommands(resource, target, heap))
  {
    var f := FrameCommands(resource, target, heap);
    var opening := [Barrier(resource, StatePresent, StateRenderTarget)];
    var middle := [SetRenderTarget(target), SetDescriptorHeaps([heap]), DrawOverlay];
    var closing := [Barrier(resource, StateRenderTarget, StatePresent)];
    assert f == opening + (middle + closing);
    TrackAppend(s, resource, opening, middle + closing);
    WritesAppend(s, resource, opening, middle + closing);
    OneBarrier(s, resource, StatePresent, StateRenderTarget);
    if s == StatePresent {
      TrackAppend(StateRenderTarget, resource, middle, closing);
      WritesAppend(StateRenderTarget, resource, middle, closing);
      TrackWithoutBarriers(StateRenderTarget, resource, middle);
      OneBarrier(StateRenderTarget, resource, StateRenderTarget, StatePresent);
    }
  }
}
