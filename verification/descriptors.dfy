/**
 * Render-target view creation: the handles ImGuiD3D12::createRT writes into the
 * RTV heap (heap start plus i increments), and the view creations both
 * backends' createRT loops cause.
 */
module Descriptors {
  import opened Types

  /** The CPU descriptor handle of entry i of a heap: its start advanced i times by the increment. */
  function DescriptorAt(heapStart: nat, increment: nat, i: nat): nat
  {
    heapStart + i * increment
  }

  /** The views ImGuiD3D12::createRT creates over the first n back buffers of `sc`, in order. */
  function ViewCreations12(sc: SwapChain, heapStart: nat, increment: nat, n: nat): (es: seq<Event>)
    ensures |es| == n
    ensures forall i :: 0 <= i < n ==> es[i] == CreateView12(GetBuffer(sc, i), DescriptorAt(heapStart, increment, i))
  {
    seq(n, i requires 0 <= i < n => CreateView12(GetBuffer(sc, i), DescriptorAt(heapStart, increment, i)))
  }

  /** The views ImGuiD3D11::createRT creates over the first n back buffers of `sc`, in order. */
  function ViewCreations11(sc: SwapChain, views: nat -> Option<Handle>, n: nat): (es: seq<Event>)
    ensures |es| == n
    ensures forall i :: 0 <= i < n ==> es[i] == CreateView11(GetBuffer(sc, i), views(i))
  {
    seq(n, i requires 0 <= i < n => CreateView11(GetBuffer(sc, i), views(i)))
  }

  /**
   * With a positive increment, two distinct back buffers never share a
   * descriptor, and every descriptor lies in the first n entries of the heap.
   */
  lemma {:induction false} DescriptorsDisjointAndInHeap(heapStart: nat, increment: nat, n: nat, i: nat, j: nat)
    requires increment > 0
    requires i < n && j < n
    ensures i != j ==> DescriptorAt(heapStart, increment, i) != DescriptorAt(heapStart, increment, j)
    ensures heapStart <= DescriptorAt(heapStart, increment, i)
    ensures DescriptorAt(heapStart, increment, i) + increment <= DescriptorAt(heapStart, increment, n)
  {
    if i < j {
      MulStrict(i, j, increment);
    } else if j < i {
      MulStrict(j, i, increment);
    }
    MulMono(i + 1, n, increment);
    assert (i + 1) * increment == i * increment + increment;
  }

  lemma {:induction false} MulStrict(a: nat, b: nat, c: nat)
    requires a < b && c > 0
    ensures a * c < b * c
    decreases b - a
  {
    assert (a + 1) * c == a * c + c;
    if a + 1 < b {
      MulStrict(a + 1, b, c);
    }
  }

  lemma {:induction false} MulMono(a: nat, b: nat, c: nat)
    requires a <= b
    ensures a * c <= b * c
    decreases b - a
  {
    if a < b {
      assert (a + 1) * c == a * c + c;
      MulMono(a + 1, b, c);
    }
  }

  /** The quiet shape of the view creations: neither calls the host's originals nor submits drawing. */
  lemma ViewCreationsAreQuiet(sc: SwapChain, heapStart: nat, increment: nat, views: nat -> Option<Handle>, n: nat)
    ensures forall i :: 0 <= i < n ==> !ViewCreations12(sc, heapStart, increment, n)[i].IsOriginalCall()
    ensures forall i :: 0 <= i < n ==> !ViewCreations12(sc, heapStart, increment, n)[i].IsSubmission()
    ensures forall i :: 0 <= i < n ==> !ViewCreations11(sc, views, n)[i].IsOriginalCall()
    ensures forall i :: 0 <= i < n ==> !ViewCreations11(sc, views, n)[i].IsSubmission()
  {
  }
}
