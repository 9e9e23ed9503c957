/**
 * The release half of the render-target lifecycle: releaseRT walks the slots in
 * index order, releases every non-null entry once and nulls it. Both backends
 * share this shape (ImGuiD3D12 over the back-buffer resources, ImGuiD3D11 over
 * the render-target views).
 */
module SlotRelease {
  import opened Types

  /** The release one slot causes: one Release for a live entry, none for a null one. */
  function ReleaseOf(entry: Option<Handle>): seq<Event>
  {
    if entry.Some? then [Release(entry.value)] else []
  }

  /** The releases a releaseRT pass over `entries` causes, in index order. */
  function Releases(entries: seq<Option<Handle>>): seq<Event>
    decreases |entries|
  {
    if entries == [] then []
    else Releases(entries[..|entries| - 1]) + ReleaseOf(entries[|entries| - 1])
  }

  ghost predicate AllNull(entries: seq<Option<Handle>>)
  {
    forall i :: 0 <= i < |entries| ==> entries[i].None?
  }

  /** No live pointer occurs in two slots. */
  ghost predicate LiveDistinct(entries: seq<Option<Handle>>)
  {
    forall i, j :: 0 <= i < j < |entries| && entries[i].Some? ==> entries[i] != entries[j]
  }

  ghost predicate NoRepeats(es: seq<Event>)
  {
    forall i, j :: 0 <= i < j < |es| ==> es[i] != es[j]
  }

  /** Releasing slots that are all null releases nothing: a second releaseRT is a no-op. */
  lemma {:induction false} ReleasesOfNullIsEmpty(entries: seq<Option<Handle>>)
    requires AllNull(entries)
    ensures Releases(entries) == []
    decreases |entries|
  {
    if entries != [] {
      ReleasesOfNullIsEmpty(entries[..|entries| - 1]);
    }
  }

  /** A pass releases a pointer exactly when some slot holds it. */
  lemma {:induction false} ReleasesExactlyLive(entries: seq<Option<Handle>>, h: Handle)
    ensures Release(h) in Releases(entries) <==> Some(h) in entries
    decreases |entries|
  {
    if entries != [] {
      var init := entries[..|entries| - 1];
      ReleasesExactlyLive(init, h);
      assert entries == init + [entries[|entries| - 1]];
    }
  }

  /** A pass only releases; it never calls into the host's originals or submits drawing. */
  lemma {:induction false} ReleasesOnlyRelease(entries: seq<Option<Handle>>)
    ensures forall i :: 0 <= i < |Releases(entries)| ==> Releases(entries)[i].Release?
    decreases |entries|
  {
    if entries != [] {
      ReleasesOnlyRelease(entries[..|entries| - 1]);
    }
  }

  /** When no live pointer sits in two slots, a pass releases no pointer twice. */
  lemma {:induction false} ReleasesNoPointerTwice(entries: seq<Option<Handle>>)
    requires LiveDistinct(entries)
    ensures NoRepeats(Releases(entries))
    decreases |entries|
  {
    if entries != [] {
      var n := |entries|;
      var init := entries[..n - 1];
      assert LiveDistinct(init) by {
        forall i, j | 0 <= i < j < |init| && init[i].Some? ensures init[i] != init[j] {
          assert init[i] == entries[i] && init[j] == entries[j];
        }
      }
      ReleasesNoPointerTwice(init);
      var last := entries[n - 1];
      if last.Some? {
        assert Some(last.value) !in init by {
          forall k | 0 <= k < |init| ensures init[k] != last {
            assert init[k] == entries[k];
          }
        }
        ReleasesExactlyLive(init, last.value);
        var rs := Releases(init);
        forall i, j | 0 <= i < j < |rs + [Release(last.value)]|
          ensures (rs + [Release(last.value)])[i] != (rs + [Release(last.value)])[j]
        {
          if j == |rs| {
            assert rs[i] in rs;
          }
        }
      }
    }
  }
}
