/**
 * Facts about event traces: which stretches of a trace call into the host,
 * and what "the hook called the original exactly once, last" means.
 */
module Trace {
  import opened Types

  ghost predicate NoOriginalCalls(es: seq<Event>)
  {
    forall i :: 0 <= i < |es| ==> !es[i].IsOriginalCall()
  }

  ghost predicate NoSubmissions(es: seq<Event>)
  {
    forall i :: 0 <= i < |es| ==> !es[i].IsSubmission()
  }

  /** Events that neither call the host's originals nor submit overlay drawing. */
  ghost predicate Quiet(es: seq<Event>)
  {
    NoOriginalCalls(es) && NoSubmissions(es)
  }

  /**
   * `after` extends `before`; the extension ends with `call` and holds no other
   * call into the host's originals.
   */
  ghost predicate CallsThroughLast(before: seq<Event>, after: seq<Event>, call: Event)
  {
    && |before| < |after|
    && after[..|before|] == before
    && after[|after| - 1] == call
    && NoOriginalCalls(after[|before|..|after| - 1])
  }

  /** The number of calls into the host's originals in a trace. */
  function OriginalCallCount(es: seq<Event>): nat
    decreases |es|
  {
    if es == [] then 0
    else OriginalCallCount(es[..|es| - 1]) + (if es[|es| - 1].IsOriginalCall() then 1 else 0)
  }

  lemma {:induction false} QuietCountsNone(es: seq<Event>)
    requires NoOriginalCalls(es)
    ensures OriginalCallCount(es) == 0
    decreases |es|
  {
    if es != [] {
      QuietCountsNone(es[..|es| - 1]);
    }
  }

  /** A hook whose trace satisfies CallsThroughLast called the host's original exactly once. */
  lemma {:induction false} CallsThroughLastIsExactlyOnce(before: seq<Event>, after: seq<Event>, call: Event)
    requires call.IsOriginalCall()
    requires CallsThroughLast(before, after, call)
    ensures OriginalCallCount(after[|before|..]) == 1
    ensures after == before + after[|before|..]
  {
    var added := after[|before|..];
    assert added[..|added| - 1] == after[|before|..|after| - 1];
    QuietCountsNone(added[..|added| - 1]);
  }

  /** Concatenating quiet stretches, with a final call, keeps only that call. */
  lemma QuietThenCall(before: seq<Event>, quiet: seq<Event>, call: Event)
    requires NoOriginalCalls(quiet)
    ensures CallsThroughLast(before, before + quiet + [call], call)
  {
    var after := before + quiet + [call];
    assert after[|before|..|after| - 1] == quiet;
    assert after[..|before|] == before;
  }

  /** A concatenation is quiet exactly when both parts are. */
  lemma QuietConcat(a: seq<Event>, b: seq<Event>)
    ensures NoOriginalCalls(a + b) <==> NoOriginalCalls(a) && NoOriginalCalls(b)
    ensures NoSubmissions(a + b) <==> NoSubmissions(a) && NoSubmissions(b)
  {
    forall i | 0 <= i < |b|
      ensures (a + b)[|a| + i] == b[i]
    {
    }
    forall i | 0 <= i < |a|
      ensures (a + b)[i] == a[i]
    {
    }
  }

  /** Regrouping a trace built by appending three stretches. */
  lemma AppendAssoc(before: seq<Event>, a: seq<Event>, b: seq<Event>, c: seq<Event>)
    ensures before + a + b + c == before + (a + b + c)
  {
  }

  /** Counting calls distributes over concatenation. */
  lemma {:induction false} CountAppend(a: seq<Event>, b: seq<Event>)
    ensures OriginalCallCount(a + b) == OriginalCallCount(a) + OriginalCallCount(b)
    decreases |b|
  {
    if b == [] {
      assert a + b == a;
    } else {
      var init := b[..|b| - 1];
      CountAppend(a, init);
      assert (a + b)[..|a + b| - 1] == a + init;
    }
  }
}
