/** The two ways the source consumes a streamed generation. The legacy manager
    (cascade.py:142-147) receives deltas and concatenates them; the orchestrator
    (cascade/core/orchestrator.py:87-101) receives cumulative snapshots and keeps
    the last one. */
module Streaming {

  /** In-order concatenation of streamed deltas. */
  function Concat(chunks: seq<string>): string
  {
    if chunks == [] then "" else Concat(chunks[..|chunks| - 1]) + chunks[|chunks| - 1]
  }

  /** The text left in the loop variable after iterating over snapshots:
      the last one, or "" when nothing was yielded. */
  function LastSnapshot(snapshots: seq<string>): string
  {
    if snapshots == [] then "" else snapshots[|snapshots| - 1]
  }

  /** Concatenating two runs of deltas is concatenating their texts, so the
      response grows by exactly each chunk, in order. */
  lemma {:induction false} ConcatAppend(a: seq<string>, b: seq<string>)
    ensures Concat(a + b) == Concat(a) + Concat(b)
    decreases |b|
  {
    if b == [] {
      assert a + b == a;
    } else {
      var b' := b[..|b| - 1];
      assert (a + b)[..|a + b| - 1] == a + b';
      ConcatAppend(a, b');
    }
  }

  /** Every delta occurs in the response at the offset given by the deltas
      before it. */
  lemma ConcatContainsChunk(chunks: seq<string>, i: nat)
    requires i < |chunks|
    ensures var before := |Concat(chunks[..i])|;
      before + |chunks[i]| <= |Concat(chunks)| &&
      Concat(chunks)[before..before + |chunks[i]|] == chunks[i]
  {
    assert chunks == chunks[..i] + [chunks[i]] + chunks[i + 1..];
    ConcatAppend(chunks[..i] + [chunks[i]], chunks[i + 1..]);
    ConcatAppend(chunks[..i], [chunks[i]]);
    assert Concat([chunks[i]]) == chunks[i] by {
      assert [chunks[i]][..0] == [];
    }
  }

  /** The snapshots a cumulative producer yields for the given deltas. */
  function Snapshots(chunks: seq<string>): (s: seq<string>)
    ensures |s| == |chunks|
    ensures forall i | 0 <= i < |s| :: s[i] == Concat(chunks[..i + 1])
  {
    seq(|chunks|, i requires 0 <= i < |chunks| => Concat(chunks[..i + 1]))
  }

  /** The two protocols agree: keeping the last cumulative snapshot gives the
      same text as concatenating the deltas. */
  lemma LastSnapshotOfDeltas(chunks: seq<string>)
    ensures LastSnapshot(Snapshots(chunks)) == Concat(chunks)
  {
    if chunks != [] {
      assert chunks[..|chunks|] == chunks;
    }
  }
}
