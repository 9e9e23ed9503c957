/**
 * The "already patched" guards. Each Original_* pointer is a registry entry:
 * absent while the pointer is null, and once present it holds the vtable entry
 * the patch displaced. A hook is installed only while its entry is absent, so
 * every slot is patched at most once per process and the saved original is the
 * entry seen at the first attempt.
 */
module HookRegistry {
  import opened Types

  type Registry = map<HookKey, Handle>

  /** One guarded patch: `if (!Original) ReplaceVtable(vtable, slot, &Original, Hook)`. */
  datatype Attempt = Attempt(key: HookKey, entry: Handle)

  function InstallOnce(m: Registry, a: Attempt): Registry
  {
    if a.key in m then m else m[a.key := a.entry]
  }

  /** The registry after a run of guarded patches, in order. */
  function InstallAll(m: Registry, attempts: seq<Attempt>): Registry
    decreases |attempts|
  {
    if attempts == [] then m else InstallAll(InstallOnce(m, attempts[0]), attempts[1..])
  }

  /** The patches a run of guarded attempts actually performs, in order. */
  function PatchEvents(m: Registry, attempts: seq<Attempt>): seq<Event>
    decreases |attempts|
  {
    if attempts == [] then []
    else
      var a := attempts[0];
      (if a.key in m then [] else [Patched(a.key, a.entry)]) + PatchEvents(InstallOnce(m, a), attempts[1..])
  }

  /** A saved original is never overwritten, and a key is saved once something tried to patch it. */
  lemma {:induction false} InstallAllKeeps(m: Registry, attempts: seq<Attempt>)
    ensures forall k :: k in m ==> k in InstallAll(m, attempts) && InstallAll(m, attempts)[k] == m[k]
    ensures InstallAll(m, attempts).Keys == m.Keys + set i | 0 <= i < |attempts| :: attempts[i].key
    decreases |attempts|
  {
    if attempts != [] {
      var m' := InstallOnce(m, attempts[0]);
      InstallAllKeeps(m', attempts[1..]);
      var rest := set i | 0 <= i < |attempts[1..]| :: attempts[1..][i].key;
      var all := set i | 0 <= i < |attempts| :: attempts[i].key;
      assert all == {attempts[0].key} + rest by {
        forall k | k in all ensures k in {attempts[0].key} + rest {
          var i :| 0 <= i < |attempts| && attempts[i].key == k;
          if i > 0 {
            assert attempts[1..][i - 1].key == k;
          }
        }
        forall k | k in rest ensures k in all {
          var i :| 0 <= i < |attempts[1..]| && attempts[1..][i].key == k;
          assert attempts[i + 1].key == k;
        }
      }
    }
  }

  /**
   * Every slot is patched at most once: the patches a run performs are for
   * pairwise distinct keys, none of them already saved, and each saved original
   * is the entry that patch displaced.
   */
  lemma {:induction false} PatchedAtMostOnce(m: Registry, attempts: seq<Attempt>)
    ensures forall i :: 0 <= i < |PatchEvents(m, attempts)| ==>
      var e := PatchEvents(m, attempts)[i];
      && e.Patched?
      && e.key !in m
      && e.key in InstallAll(m, attempts)
      && InstallAll(m, attempts)[e.key] == e.original
    ensures forall i, j :: 0 <= i < j < |PatchEvents(m, attempts)| ==>
      PatchEvents(m, attempts)[i].key != PatchEvents(m, attempts)[j].key
    decreases |attempts|
  {
    if attempts != [] {
      var a := attempts[0];
      var m' := InstallOnce(m, a);
      var head := if a.key in m then [] else [Patched(a.key, a.entry)];
      var rest := PatchEvents(m', attempts[1..]);
      PatchedAtMostOnce(m', attempts[1..]);
      InstallAllKeeps(m', attempts[1..]);
      assert PatchEvents(m, attempts) == head + rest;
      assert InstallAll(m, attempts) == InstallAll(m', attempts[1..]);
      forall i | 0 <= i < |rest| ensures rest[i].key != a.key {
        assert a.key in m';
      }
    }
  }

  /** Two runs of attempts in a row behave as one run of both. */
  lemma {:induction false} InstallAllComposes(m: Registry, first: seq<Attempt>, second: seq<Attempt>)
    ensures InstallAll(m, first + second) == InstallAll(InstallAll(m, first), second)
    ensures PatchEvents(m, first + second) == PatchEvents(m, first) + PatchEvents(InstallAll(m, first), second)
    decreases |first|
  {
    if first == [] {
      assert first + second == second;
    } else {
      assert (first + second)[0] == first[0];
      assert (first + second)[1..] == first[1..] + second;
      InstallAllComposes(InstallOnce(m, first[0]), first[1..], second);
    }
  }
}
