/** torch.topk(cls_attn, left, largest=True, sorted=True) for one batch row.
    The primitive promises no particular order among equal scores, so what the
    block relies on is the relation IsTopK; TopK is one selection (ties go to
    the lower index) shown to satisfy it. */
module Selection {
  import opened Common

  /** idx is a valid answer of a sorted top-k query on scores: k distinct
      positions of scores, their scores non-increasing along idx, and no
      unselected position scoring above a selected one. */
  predicate IsTopK(scores: seq<real>, k: int, idx: seq<int>) {
    && |idx| == k
    && AllBelow(idx, |scores|)
    && Distinct(idx)
    && (forall s, t :: 0 <= s < t < |idx| ==> scores[idx[t]] <= scores[idx[s]])
    && (forall j, t :: 0 <= j < |scores| && j !in idx && 0 <= t < |idx| ==> scores[j] <= scores[idx[t]])
  }

  /** A position below n outside taken with the largest score (the lowest such
      position on ties), or -1 when every position below n is taken. */
  function Best(scores: seq<real>, taken: seq<int>, n: nat): (b: int)
    requires n <= |scores|
    ensures -1 <= b < n
    ensures b == -1 <==> forall j :: 0 <= j < n ==> j in taken
    ensures b >= 0 ==> b !in taken && forall j :: 0 <= j < n && j !in taken ==> scores[j] <= scores[b]
  {
    if n == 0 then -1
    else
      var b := Best(scores, taken, n - 1);
      if n - 1 in taken then b
      else if b == -1 || scores[b] < scores[n - 1] then n - 1
      else b
  }

  /** Appending the best remaining position to a top-k answer gives a top-(k+1)
      answer. */
  lemma TopKExtend(scores: seq<real>, prev: seq<int>, b: int)
    requires IsTopK(scores, |prev|, prev)
    requires 0 <= b < |scores| && b !in prev
    requires forall j :: 0 <= j < |scores| && j !in prev ==> scores[j] <= scores[b]
    ensures IsTopK(scores, |prev| + 1, prev + [b])
  {
    var idx := prev + [b];
    forall t | 0 <= t < |prev| ensures scores[b] <= scores[prev[t]] {
      assert prev[t] in prev;
    }
    assert forall j :: j in idx <==> j in prev || j == b;
  }

  /** Selecting the k best positions one after another, each time the best of
      what is left. */
  function TopK(scores: seq<real>, k: nat): (idx: seq<int>)
    requires k <= |scores|
    ensures |idx| == k
  {
    if k == 0 then []
    else TopK(scores, k - 1) + [Best(scores, TopK(scores, k - 1), |scores|)]
  }

  /** The greedy selection answers the top-k query: while fewer than all
      positions are taken some position is left, and the best of those extends
      a top-(k-1) answer to a top-k answer. */
  lemma {:induction false} TopKCorrect(scores: seq<real>, k: nat)
    requires k <= |scores|
    ensures IsTopK(scores, k, TopK(scores, k))
  {
    if k > 0 {
      var prev := TopK(scores, k - 1);
      TopKCorrect(scores, k - 1);
      Pigeonhole(prev, |scores|);
      TopKExtend(scores, prev, Best(scores, prev, |scores|));
    }
  }
}
