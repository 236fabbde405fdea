/** The token-reduction branch of Block.forward for one batch row: score the
    non-class tokens by the class token's head-averaged attention, keep the
    top `left` of them in score order, fuse the rest into one token, and
    rebuild the sequence as [class token] ++ kept ++ [fused]. */
module Block {
  import opened Common
  import opened Complement
  import opened Selection
  import opened Tokens

  /** math.ceil on an exact rational. */
  function Ceil(r: real): (c: int)
    ensures r <= c as real < r + 1.0
  {
    var f := r.Floor;
    if f as real == r then f else f + 1
  }

  /** left_tokens = ceil(keep_rate * (N - 1)) for a sequence of N tokens. */
  function LeftTokens(rate: real, n: int): int {
    Ceil(Mul(rate, (n - 1) as real))
  }

  lemma RateTimesCount(rate: real, m: real)
    requires 0.0 < rate <= 1.0 && m >= 0.0
    ensures 0.0 <= Mul(rate, m) <= m
    ensures m > 0.0 ==> Mul(rate, m) > 0.0
  {
    assert m - rate * m == (1.0 - rate) * m;
  }

  /** With a keep rate in (0, 1] and at least one non-class token, the number
      kept is between 1 and the number of non-class tokens. */
  lemma LeftTokensRange(rate: real, n: int)
    requires 0.0 < rate <= 1.0 && n >= 2
    ensures 1 <= LeftTokens(rate, n) <= n - 1
  {
    RateTimesCount(rate, (n - 1) as real);
  }

  /** torch.gather along the token axis: the entries of s at the listed
      positions, in the order listed. */
  function Gather<T>(s: seq<T>, idx: seq<int>): (r: seq<T>)
    requires AllBelow(idx, |s|)
    ensures |r| == |idx|
  {
    seq(|idx|, t requires 0 <= t < |idx| => s[idx[t]])
  }

  /** What a block hands back: the new sequence, n_tokens, and, when reduction
      fired, the selection trace (kept indices then -1) and the complement. */
  datatype BlockOut = BlockOut(x: seq<Vec>, nTokens: int, trace: Option<seq<int>>, compl: Option<seq<int>>)

  /** The fused token: the discarded non-class tokens, listed by compl in
      ascending index order, each weighted by its own score. */
  function FusedToken(x: seq<Vec>, scores: seq<real>, compl: seq<int>): Vec
    requires |x| >= 1 && |scores| == |x| - 1 && AllBelow(compl, |x| - 1)
  {
    Fuse(Gather(x[1..], compl), Gather(scores, compl))
  }

  /** The reduction branch once the kept indices idx and their complement compl
      are known. */
  function Reassemble(x: seq<Vec>, scores: seq<real>, idx: seq<int>, compl: seq<int>): BlockOut
    requires |x| >= 1 && |scores| == |x| - 1 && AllBelow(idx, |x| - 1) && AllBelow(compl, |x| - 1)
  {
    var y := [x[0]] + Gather(x[1..], idx) + [FusedToken(x, scores, compl)];
    BlockOut(y, |y| - 1, Some(idx + [-1]), Some(compl))
  }

  /** kept is a valid top-k answer of size left over scores, and compl the
      ascending list of the other non-class positions. */
  predicate Selected(scores: seq<real>, left: int, kept: seq<int>, compl: seq<int>) {
    && IsTopK(scores, left, kept)
    && compl == Missing(kept, |scores|)
    && AllBelow(compl, |scores|)
  }

  /** y is [x[0]] ++ the tokens at the kept positions, in the order kept lists
      them ++ [the token fused from the positions compl lists]. */
  predicate Layout(x: seq<Vec>, scores: seq<real>, kept: seq<int>, compl: seq<int>, y: seq<Vec>)
    requires |x| >= 1 && |scores| == |x| - 1 && AllBelow(kept, |x| - 1) && AllBelow(compl, |x| - 1)
  {
    && |y| == |kept| + 2
    && y[0] == x[0]
    && (forall t :: 0 <= t < |kept| ==> y[1 + t] == x[1 + kept[t]])
    && y[|kept| + 1] == FusedToken(x, scores, compl)
  }

  /** out is what the reduction branch produces from x and scores when it keeps
      left tokens: left tokens kept, chosen by a valid top-k query and listed in
      that order after the unchanged class token, followed by the fused token;
      the trace is the kept indices then -1 and the complement is the ascending
      rest. */
  predicate Fires(x: seq<Vec>, scores: seq<real>, left: int, out: BlockOut) {
    && 1 <= left < |x| - 1
    && |scores| == |x| - 1
    && out.trace.Some? && out.compl.Some?
    && |out.trace.value| == left + 1
    && out.trace.value[left] == -1
    && Selected(scores, left, out.trace.value[..left], out.compl.value)
    && Layout(x, scores, out.trace.value[..left], out.compl.value, out.x)
    && out.nTokens == left + 1
  }

  lemma ReassembleLayout(x: seq<Vec>, scores: seq<real>, idx: seq<int>, compl: seq<int>)
    requires |x| >= 1 && |scores| == |x| - 1 && AllBelow(idx, |x| - 1) && AllBelow(compl, |x| - 1)
    ensures Layout(x, scores, idx, compl, Reassemble(x, scores, idx, compl).x)
  {
  }

  lemma ReassembleTrace(x: seq<Vec>, scores: seq<real>, idx: seq<int>, compl: seq<int>)
    requires |x| >= 1 && |scores| == |x| - 1 && AllBelow(idx, |x| - 1) && AllBelow(compl, |x| - 1)
    ensures var out := Reassemble(x, scores, idx, compl);
      && out.trace.Some? && out.compl == Some(compl)
      && out.trace.value[..|idx|] == idx && |out.trace.value| == |idx| + 1
      && out.trace.value[|idx|] == -1
      && out.nTokens == |idx| + 1
  {
    var out := Reassemble(x, scores, idx, compl);
    assert out.trace.value == idx + [-1];
  }

  /** Whatever valid top-k answer is used, reassembling with it and its
      complement gives an output that Fires describes. */
  lemma ReassembleFires(x: seq<Vec>, scores: seq<real>, left: int, idx: seq<int>, compl: seq<int>)
    requires 1 <= left < |x| - 1 && |scores| == |x| - 1
    requires Selected(scores, left, idx, compl)
    ensures Fires(x, scores, left, Reassemble(x, scores, idx, compl))
  {
    ReassembleLayout(x, scores, idx, compl);
    ReassembleTrace(x, scores, idx, compl);
  }

  lemma TopKBelow(scores: seq<real>, k: nat)
    requires k <= |scores|
    ensures AllBelow(TopK(scores, k), |scores|)
  {
    TopKCorrect(scores, k);
  }

  lemma MissingBelow(idx: seq<int>, d: nat)
    ensures AllBelow(Missing(idx, d), d)
  {
    MissingSpec(idx, d);
  }

  /** The reduction branch proper: keep the top left positions by score,
      discard the others (complement_idx of the kept ones) and reassemble. */
  function Fire(x: seq<Vec>, scores: seq<real>, left: nat): BlockOut
    requires 1 <= left < |x| - 1 && |scores| == |x| - 1
  {
    var idx := TopK(scores, left);
    TopKBelow(scores, left);
    MissingBelow(idx, |x| - 1);
    Reassemble(x, scores, idx, Missing(idx, |x| - 1))
  }

  lemma FireFires(x: seq<Vec>, scores: seq<real>, left: nat)
    requires 1 <= left < |x| - 1 && |scores| == |x| - 1
    ensures Fires(x, scores, left, Fire(x, scores, left))
  {
    var idx := TopK(scores, left);
    TopKCorrect(scores, left);
    MissingSpec(idx, |x| - 1);
    ReassembleFires(x, scores, left, idx, Missing(idx, |x| - 1));
  }

  /** Block.forward's token bookkeeping with the unbound-index case corrected:
      when the keep rate is below one but nothing would be discarded, the
      sequence passes through unchanged, as it does for a keep rate of one. The
      keep rate lies in (0, 1], as the block's constructor asserts. */
  function Reduce(x: seq<Vec>, scores: seq<real>, rate: real): (r: Result<BlockOut>)
    requires 0.0 < rate <= 1.0
    ensures r.Err? <==> rate < 1.0 && LeftTokens(rate, |x|) != |x| - 1 &&
                        (LeftTokens(rate, |x|) < 1 || |scores| != |x| - 1)
    ensures r.Err? ==> r.error == (if LeftTokens(rate, |x|) < 1 then LeftTooSmall else ShapeMismatch)
    ensures r.Ok? ==> (r.value.trace.Some? <==> rate < 1.0 && LeftTokens(rate, |x|) != |x| - 1)
    ensures r.Ok? && r.value.trace.None? ==>
              r.value.x == x && r.value.nTokens == |x| - 1 && r.value.compl.None?
  {
    var n := |x|;
    var left := LeftTokens(rate, n);
    if rate < 1.0 && left != n - 1 then
      if left < 1 then Err(LeftTooSmall)
      else if |scores| != n - 1 then Err(ShapeMismatch)
      else
        LeftTokensRange(rate, n);
        Ok(Fire(x, scores, left))
    else
      Ok(BlockOut(x, n - 1, None, None))
  }

  /** When the block reduces, its output is a top-k selection of the scores,
      the complement of that selection, and the reassembled sequence. */
  lemma ReduceFires(x: seq<Vec>, scores: seq<real>, rate: real)
    requires 0.0 < rate <= 1.0
    requires Reduce(x, scores, rate).Ok? && Reduce(x, scores, rate).value.trace.Some?
    ensures Fires(x, scores, LeftTokens(rate, |x|), Reduce(x, scores, rate).value)
  {
    var left := LeftTokens(rate, |x|);
    if |x| >= 2 {
      LeftTokensRange(rate, |x|);
    }
    assert 1 <= left < |x| - 1 && |scores| == |x| - 1;
    FireFires(x, scores, left);
  }

  /** The discarded positions are what complement_idx computes from the kept
      ones. */
  lemma ReduceComplement(x: seq<Vec>, scores: seq<real>, rate: real)
    requires 0.0 < rate <= 1.0
    requires Reduce(x, scores, rate).Ok? && Reduce(x, scores, rate).value.trace.Some?
    ensures var out := Reduce(x, scores, rate).value;
      var kept := out.trace.value[..|out.trace.value| - 1];
      && AllBelow(kept, |x| - 1) && Distinct(kept)
      && out.compl == Some(ComplementIdx(kept, |x| - 1))
  {
    ReduceFires(x, scores, rate);
  }

  /** Block.forward as written: when the keep rate is below one but
      ceil(rate * (N - 1)) == N - 1, the local `index` is never bound and the
      final test on it raises. Everything else is Reduce. */
  function ReduceAsWritten(x: seq<Vec>, scores: seq<real>, rate: real): (r: Result<BlockOut>)
    requires 0.0 < rate <= 1.0
    ensures r == Err(UnboundIndex) <==> rate < 1.0 && LeftTokens(rate, |x|) == |x| - 1
    ensures r != Err(UnboundIndex) ==> r == Reduce(x, scores, rate)
  {
    if rate < 1.0 && LeftTokens(rate, |x|) == |x| - 1 then Err(UnboundIndex)
    else Reduce(x, scores, rate)
  }

  /** The as-written block fails on every short enough sequence: whenever the
      m = N - 1 non-class tokens satisfy m * (1 - rate) < 1, rounding up keeps
      all of them. */
  lemma UnboundIndexOnShortSequences(x: seq<Vec>, scores: seq<real>, rate: real)
    requires 0.0 < rate < 1.0 && |x| >= 1
    requires Mul((|x| - 1) as real, 1.0 - rate) < 1.0
    ensures ReduceAsWritten(x, scores, rate) == Err(UnboundIndex)
    ensures Reduce(x, scores, rate) == Ok(BlockOut(x, |x| - 1, None, None))
  {
    var m := (|x| - 1) as real;
    ShortCountRoundsUp(rate, m);
    var c := LeftTokens(rate, |x|);
    assert m - 1.0 < c as real < m + 1.0;
    assert |x| - 2 < c < |x|;
  }

  lemma ShortCountRoundsUp(rate: real, m: real)
    requires 0.0 < rate < 1.0 && m >= 0.0 && Mul(m, 1.0 - rate) < 1.0
    ensures m - 1.0 < Mul(rate, m) <= m
  {
    RateTimesCount(rate, m);
    assert m - rate * m == m * (1.0 - rate);
  }

  /** A concrete failing input: ten tokens at keep rate 0.9 give
      ceil(0.9 * 9) = 9 = N - 1. */
  lemma UnboundIndexExample(x: seq<Vec>, scores: seq<real>)
    requires |x| == 10
    ensures LeftTokens(0.9, |x|) == 9
    ensures ReduceAsWritten(x, scores, 0.9) == Err(UnboundIndex)
  {
    UnboundIndexOnShortSequences(x, scores, 0.9);
  }

  /** The corrected block never fails on a well-formed input: a non-empty
      sequence with one score per non-class token. */
  lemma ReduceSucceeds(x: seq<Vec>, scores: seq<real>, rate: real)
    requires 0.0 < rate <= 1.0 && |x| >= 1 && |scores| == |x| - 1
    ensures Reduce(x, scores, rate).Ok?
  {
    if |x| >= 2 {
      LeftTokensRange(rate, |x|);
    } else {
      assert LeftTokens(rate, |x|) == 0;
    }
  }

  /** The token count after a block. */
  function NextLength(rate: real, n: int): int {
    if rate < 1.0 && LeftTokens(rate, n) != n - 1 then LeftTokens(rate, n) + 2 else n
  }

  lemma ReduceLength(x: seq<Vec>, scores: seq<real>, rate: real)
    requires 0.0 < rate <= 1.0 && Reduce(x, scores, rate).Ok?
    ensures |Reduce(x, scores, rate).value.x| == NextLength(rate, |x|)
    ensures |x| >= 1 ==> |Reduce(x, scores, rate).value.x| >= 1
  {
  }

  /** No block moves or removes the class token: it stays at position 0. */
  lemma ReduceKeepsClassToken(x: seq<Vec>, scores: seq<real>, rate: real)
    requires 0.0 < rate <= 1.0 && |x| >= 1 && Reduce(x, scores, rate).Ok?
    ensures var y := Reduce(x, scores, rate).value.x; |y| >= 1 && y[0] == x[0]
  {
    if Reduce(x, scores, rate).value.trace.Some? {
      ReduceFires(x, scores, rate);
    }
  }

  /** A worked example: 197 tokens reduced at keep rate 0.9 three
      times keep 177, 161 and 146 non-class tokens, leaving 179, 163 and 148
      tokens; at keep rate 0.7, 138 of 196 are kept. */
  lemma LengthTrajectoryExample()
    ensures LeftTokens(0.7, 197) == 138
    ensures NextLength(0.9, 197) == 179
    ensures NextLength(0.9, 179) == 163
    ensures NextLength(0.9, 163) == 148
  {
  }

  lemma GatherAppend<T>(s: seq<T>, a: seq<int>, b: seq<int>)
    requires AllBelow(a, |s|) && AllBelow(b, |s|)
    ensures AllBelow(a + b, |s|) && Gather(s, a + b) == Gather(s, a) + Gather(s, b)
  {
  }

  lemma LastPositionListed(p: seq<int>, n: nat)
    requires |p| == n + 1 && Distinct(p) && AllBelow(p, n + 1)
    ensures n in p
  {
    if n !in p {
      assert AllBelow(p, n);
      CountInDistinct(p, n);
    }
  }

  lemma RemoveAt(p: seq<int>, n: nat, k: int)
    requires |p| == n + 1 && Distinct(p) && AllBelow(p, n + 1)
    requires 0 <= k < |p| && p[k] == n
    ensures var q := p[..k] + p[k + 1..]; |q| == n && Distinct(q) && AllBelow(q, n)
  {
    var q := p[..k] + p[k + 1..];
    forall i, j | 0 <= i < j < |q| ensures q[i] != q[j] {
      var i' := if i < k then i else i + 1;
      var j' := if j < k then j else j + 1;
      assert q[i] == p[i'] && q[j] == p[j'];
    }
    forall i | 0 <= i < |q| ensures 0 <= q[i] < n {
      var i' := if i < k then i else i + 1;
      assert q[i] == p[i'];
    }
  }

  lemma GatherSplit<T>(s: seq<T>, p: seq<int>, k: int)
    requires |s| > 0 && AllBelow(p, |s|) && 0 <= k < |p| && p[k] == |s| - 1
    requires AllBelow(p[..k] + p[k + 1..], |s| - 1)
    ensures multiset(Gather(s, p)) ==
            multiset(Gather(s[..|s| - 1], p[..k] + p[k + 1..])) + multiset{s[|s| - 1]}
  {
    var n := |s| - 1;
    var q := p[..k] + p[k + 1..];
    var g := Gather(s, p);
    var h := Gather(s[..n], q);
    forall t | 0 <= t < |g| ensures g[t] == (h[..k] + [s[n]] + h[k..])[t] {
      if t < k {
        assert q[t] == p[t];
      } else if t > k {
        assert q[t - 1] == p[t];
      }
    }
    assert g == h[..k] + [s[n]] + h[k..];
    calc {
      multiset(g);
      multiset(h[..k]) + multiset{s[n]} + multiset(h[k..]);
      { assert h == h[..k] + h[k..]; }
      multiset(h) + multiset{s[n]};
    }
  }

  /** Gathering along a rearrangement of all positions keeps the same tokens. */
  lemma {:induction false} GatherPermutation<T>(s: seq<T>, p: seq<int>)
    requires |p| == |s| && Distinct(p) && AllBelow(p, |s|)
    ensures multiset(Gather(s, p)) == multiset(s)
  {
    if |s| > 0 {
      var n := |s| - 1;
      LastPositionListed(p, n);
      var k :| 0 <= k < |p| && p[k] == n;
      RemoveAt(p, n, k);
      GatherPermutation(s[..n], p[..k] + p[k + 1..]);
      GatherSplit(s, p, k);
      assert s == s[..n] + [s[n]];
    }
  }

  /** Layout puts the kept tokens, in the order kept lists them, right after
      the class token. */
  lemma LayoutKeptSlice(x: seq<Vec>, scores: seq<real>, kept: seq<int>, compl: seq<int>, y: seq<Vec>)
    requires |x| >= 1 && |scores| == |x| - 1 && AllBelow(kept, |x| - 1) && AllBelow(compl, |x| - 1)
    requires Layout(x, scores, kept, compl, y)
    ensures y[1..|kept| + 1] == Gather(x[1..], kept)
  {
  }

  lemma KeptAndMissingConserve(others: seq<Vec>, kept: seq<int>)
    requires AllBelow(kept, |others|) && Distinct(kept)
    ensures AllBelow(Missing(kept, |others|), |others|)
    ensures multiset(Gather(others, kept)) + multiset(Gather(others, Missing(kept, |others|))) ==
            multiset(others)
  {
    var compl := Missing(kept, |others|);
    MissingSpec(kept, |others|);
    KeptThenMissingIsPermutation(kept, |others|);
    GatherAppend(others, kept, compl);
    GatherPermutation(others, kept + compl);
  }

  /** No token is lost or duplicated: the kept tokens of the new sequence and the
      discarded tokens that went into the fused token are, together, exactly the
      non-class tokens of the input. */
  lemma ReduceConservesTokens(x: seq<Vec>, scores: seq<real>, left: int, out: BlockOut)
    requires Fires(x, scores, left, out)
    ensures multiset(out.x[1..|out.trace.value|]) + multiset(Gather(x[1..], out.compl.value)) ==
            multiset(x[1..])
  {
    var kept := out.trace.value[..|out.trace.value| - 1];
    assert |x[1..]| == |scores|;
    LayoutKeptSlice(x, scores, kept, out.compl.value, out.x);
    KeptAndMissingConserve(x[1..], kept);
  }

  /** The kept indices and the complement split the non-class positions
      {0, ..., N-2}: disjoint, covering, sizes adding to N - 1. */
  lemma ReducePartitions(x: seq<Vec>, scores: seq<real>, left: int, out: BlockOut)
    requires Fires(x, scores, left, out)
    ensures var kept := out.trace.value[..|out.trace.value| - 1];
      var compl := out.compl.value;
      && |kept| + |compl| == |x| - 1
      && (forall v :: v in kept ==> v !in compl)
      && (forall v :: 0 <= v < |x| - 1 <==> v in kept || v in compl)
      && StrictlyAscending(compl)
  {
    var kept := out.trace.value[..|out.trace.value| - 1];
    KeptThenMissingIsPermutation(kept, |scores|);
    MissingSpec(kept, |scores|);
    forall v | v in kept ensures 0 <= v < |x| - 1 {
      var t :| 0 <= t < |kept| && kept[t] == v;
    }
  }

  /** The fused token is, channel by channel, the score-weighted sum of the
      discarded tokens in ascending index order. */
  lemma ReduceFusesDiscarded(x: seq<Vec>, scores: seq<real>, left: int, out: BlockOut, c: nat)
    requires Fires(x, scores, left, out) && c < Channels
    ensures var compl := out.compl.value;
      AllBelow(compl, |x| - 1) &&
      out.x[|out.x| - 1][c] == Sum(ChannelTerms(Gather(x[1..], compl), Gather(scores, compl), c))
  {
    var compl := out.compl.value;
    FuseChannel(Gather(x[1..], compl), Gather(scores, compl), c);
  }
}
