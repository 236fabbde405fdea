/** complement_idx: the indices of [0, dim) that a top-k selection did not keep,
    computed by the source with a trick: write a 0 over every kept position of
    arange(dim), sort ascending, and drop the first K entries. */
module Complement {
  import opened Common

  predicate Ascending(s: seq<int>) {
    forall i, j :: 0 <= i < j < |s| ==> s[i] <= s[j]
  }

  predicate StrictlyAscending(s: seq<int>) {
    forall i, j :: 0 <= i < j < |s| ==> s[i] < s[j]
  }

  /** torch.scatter(arange(dim), -1, idx, 0): every position listed in idx holds 0,
      every other position j holds j. */
  function Scatter0(idx: seq<int>, dim: nat): seq<int> {
    if dim == 0 then [] else Scatter0(idx, dim - 1) + [if dim - 1 in idx then 0 else dim - 1]
  }

  /** Scatter0 is arange(dim) with a 0 written at each listed position. */
  lemma {:induction false} ScatterEntries(idx: seq<int>, dim: nat)
    ensures |Scatter0(idx, dim)| == dim
    ensures forall j :: 0 <= j < dim ==> Scatter0(idx, dim)[j] == if j in idx then 0 else j
  {
    if dim > 0 {
      ScatterEntries(idx, dim - 1);
    }
  }

  /** Insertion into an ascending list: v goes before the first entry not
      below it. */
  function Insert(v: int, s: seq<int>): seq<int> {
    if s == [] || v <= s[0] then [v] + s
    else [s[0]] + Insert(v, s[1..])
  }

  /** torch.sort(..., descending=False) on integers, as an insertion sort. */
  function Sort(s: seq<int>): seq<int> {
    if s == [] then [] else Insert(s[0], Sort(s[1..]))
  }

  /** Inserting adds exactly the inserted value. */
  lemma {:induction false} InsertPermutes(v: int, s: seq<int>)
    ensures multiset(Insert(v, s)) == multiset(s) + multiset{v}
  {
    if s != [] && v > s[0] {
      InsertPermutes(v, s[1..]);
      assert s == [s[0]] + s[1..];
    }
  }

  /** Inserting into an ascending list keeps it ascending. */
  lemma {:induction false} InsertOrders(v: int, s: seq<int>)
    requires Ascending(s)
    ensures Ascending(Insert(v, s))
  {
    if s != [] && v > s[0] {
      var rest := Insert(v, s[1..]);
      InsertOrders(v, s[1..]);
      InsertPermutes(v, s[1..]);
      forall k | 0 <= k < |rest| ensures s[0] <= rest[k] {
        assert rest[k] in multiset(rest);
        assert rest[k] == v || rest[k] in multiset(s[1..]);
      }
    }
  }

  /** Sorting yields an ascending rearrangement of its input. */
  lemma {:induction false} SortPermutesAndOrders(s: seq<int>)
    ensures Ascending(Sort(s))
    ensures multiset(Sort(s)) == multiset(s)
  {
    if s != [] {
      SortPermutesAndOrders(s[1..]);
      InsertPermutes(s[0], Sort(s[1..]));
      InsertOrders(s[0], Sort(s[1..]));
      assert s == [s[0]] + s[1..];
    }
  }

  /** Every entry of an ascending list is at least its head. */
  lemma AscendingHeadIsLeast(a: seq<int>, v: int)
    requires Ascending(a) && v in multiset(a)
    ensures a[0] <= v
  {
    var k :| 0 <= k < |a| && a[k] == v;
  }

  lemma TailMultiset(a: seq<int>)
    requires a != []
    ensures multiset(a[1..]) == multiset(a) - multiset{a[0]}
  {
    assert a == [a[0]] + a[1..];
  }

  /** Two ascending lists with the same elements start with the same value and
      continue with the same elements. */
  lemma AscendingSameHead(a: seq<int>, b: seq<int>)
    requires Ascending(a) && Ascending(b) && multiset(a) == multiset(b) && a != []
    ensures b != [] && a[0] == b[0] && multiset(a[1..]) == multiset(b[1..])
  {
    assert |multiset(b)| == |a|;
    assert a[0] in multiset(a) && b[0] in multiset(b);
    AscendingHeadIsLeast(a, b[0]);
    AscendingHeadIsLeast(b, a[0]);
    TailMultiset(a);
    TailMultiset(b);
  }

  /** Two ascending lists with the same elements are the same list, so the
      result of sorting does not depend on how the sort is done. */
  lemma {:induction false} AscendingUnique(a: seq<int>, b: seq<int>)
    requires Ascending(a) && Ascending(b) && multiset(a) == multiset(b)
    ensures a == b
  {
    if a == [] {
      assert |multiset(b)| == 0;
    } else {
      AscendingSameHead(a, b);
      AscendingUnique(a[1..], b[1..]);
      assert a == [a[0]] + a[1..];
      assert b == [b[0]] + b[1..];
    }
  }

  /** The reference definition: the values of [0, d) absent from idx, in
      ascending order. */
  function Missing(idx: seq<int>, d: nat): seq<int> {
    if d == 0 then [] else Missing(idx, d - 1) + (if d - 1 in idx then [] else [d - 1])
  }

  lemma {:induction false} MissingMembers(idx: seq<int>, d: nat)
    ensures forall v :: v in Missing(idx, d) <==> 0 <= v < d && v !in idx
  {
    if d > 0 {
      MissingMembers(idx, d - 1);
      var prev := Missing(idx, d - 1);
      var tail := if d - 1 in idx then [] else [d - 1];
      assert Missing(idx, d) == prev + tail;
      assert forall v :: v in prev + tail <==> v in prev || v in tail;
    }
  }

  lemma {:induction false} MissingAscending(idx: seq<int>, d: nat)
    ensures StrictlyAscending(Missing(idx, d))
  {
    if d > 0 {
      MissingAscending(idx, d - 1);
      MissingMembers(idx, d - 1);
      var prev := Missing(idx, d - 1);
      forall k | 0 <= k < |prev| ensures prev[k] < d - 1 {
        assert prev[k] in prev;
      }
    }
  }

  lemma {:induction false} MissingLength(idx: seq<int>, d: nat)
    ensures |Missing(idx, d)| == d - CountIn(idx, d)
  {
    if d > 0 {
      MissingLength(idx, d - 1);
    }
  }

  /** Missing(idx, d) lists, strictly ascending, exactly the values below d that
      idx lacks, and so has d minus the number of values below d that idx has. */
  lemma MissingSpec(idx: seq<int>, d: nat)
    ensures StrictlyAscending(Missing(idx, d))
    ensures forall v :: v in Missing(idx, d) <==> 0 <= v < d && v !in idx
    ensures |Missing(idx, d)| == d - CountIn(idx, d)
    ensures AllBelow(Missing(idx, d), d)
  {
    MissingMembers(idx, d);
    MissingAscending(idx, d);
    MissingLength(idx, d);
    var m := Missing(idx, d);
    forall i | 0 <= i < |m| ensures 0 <= m[i] < d {
      assert m[i] in m;
    }
  }

  /** k copies of the sentinel 0. */
  function Zeros(k: nat): seq<int> {
    if k == 0 then [] else Zeros(k - 1) + [0]
  }

  lemma {:induction false} ZerosEntries(k: nat)
    ensures |Zeros(k)| == k && forall i :: 0 <= i < k ==> Zeros(k)[i] == 0
  {
    if k > 0 {
      ZerosEntries(k - 1);
    }
  }

  /** s holds exactly the values of z and of m together. */
  predicate SplitsInto(s: seq<int>, z: seq<int>, m: seq<int>) {
    multiset(s) == multiset(z) + multiset(m)
  }

  /** The multiset bookkeeping of one scatter step, on plain lists: a new 0
      joins the zeros, a new untouched value joins the missing values. */
  lemma SplitStep(s0: seq<int>, z0: seq<int>, m0: seq<int>, v: int)
    requires SplitsInto(s0, z0, m0)
    ensures SplitsInto(s0 + [0], z0 + [0], m0)
    ensures SplitsInto(s0 + [v], z0, m0 + [v])
  {
  }

  lemma ScatterStep(idx: seq<int>, d: nat)
    requires d > 0
    ensures SplitsInto(Scatter0(idx, d - 1), Zeros(CountIn(idx, d - 1)), Missing(idx, d - 1)) ==>
            SplitsInto(Scatter0(idx, d), Zeros(CountIn(idx, d)), Missing(idx, d))
  {
    var s0, m0, c0 := Scatter0(idx, d - 1), Missing(idx, d - 1), CountIn(idx, d - 1);
    if !SplitsInto(s0, Zeros(c0), m0) {
      return;
    }
    SplitStep(s0, Zeros(c0), m0, d - 1);
    if d - 1 in idx {
      assert Scatter0(idx, d) == s0 + [0];
      assert Zeros(CountIn(idx, d)) == Zeros(c0) + [0];
      assert Missing(idx, d) == m0;
    } else {
      assert Scatter0(idx, d) == s0 + [d - 1];
      assert Zeros(CountIn(idx, d)) == Zeros(c0);
      assert Missing(idx, d) == m0 + [d - 1];
    }
  }

  lemma ScatterBase(idx: seq<int>)
    ensures SplitsInto(Scatter0(idx, 0), Zeros(CountIn(idx, 0)), Missing(idx, 0))
  {
    assert Scatter0(idx, 0) == [] && Zeros(CountIn(idx, 0)) == [] && Missing(idx, 0) == [];
  }

  /** After the scatter over [0, d), the list holds one 0 per kept value and,
      besides, exactly the values that were not kept. */
  lemma {:induction false} ScatterMultiset(idx: seq<int>, d: nat)
    ensures SplitsInto(Scatter0(idx, d), Zeros(CountIn(idx, d)), Missing(idx, d))
  {
    if d == 0 {
      ScatterBase(idx);
    } else {
      ScatterMultiset(idx, d - 1);
      ScatterStep(idx, d);
    }
  }

  /** Sentinel zeros followed by a strictly ascending list of naturals are in
      ascending order. */
  lemma ZerosThenAscending(k: nat, m: seq<int>)
    requires StrictlyAscending(m) && forall v :: v in m ==> v >= 0
    ensures Ascending(Zeros(k) + m)
  {
    var z := Zeros(k);
    ZerosEntries(k);
    forall i, j | 0 <= i < j < |z + m| ensures (z + m)[i] <= (z + m)[j] {
      if j >= |z| {
        assert m[j - |z|] in m;
        if i >= |z| {
          assert m[i - |z|] < m[j - |z|];
        }
      }
    }
  }

  /** The heart of the trick: sorting the scattered list yields K zeros followed
      by the ascending complement, whether or not 0 itself was kept (when it was
      not, its own 0 is the first value of the complement). */
  lemma SentinelSort(idx: seq<int>, dim: nat)
    requires AllBelow(idx, dim) && Distinct(idx)
    ensures Sort(Scatter0(idx, dim)) == Zeros(|idx|) + Missing(idx, dim)
  {
    var m := Missing(idx, dim);
    var z := Zeros(|idx|);
    MissingSpec(idx, dim);
    CountInDistinct(idx, dim);
    ScatterMultiset(idx, dim);
    assert multiset(z + m) == multiset(z) + multiset(m);
    ZerosThenAscending(|idx|, m);
    SortPermutesAndOrders(Scatter0(idx, dim));
    AscendingUnique(Sort(Scatter0(idx, dim)), z + m);
  }

  /** complement_idx(idx, dim) for one batch row: the K = |idx| kept indices are
      distinct and below dim; the result is exactly the other indices of
      [0, dim), strictly ascending. */
  function ComplementIdx(idx: seq<int>, dim: nat): (r: seq<int>)
    requires AllBelow(idx, dim) && Distinct(idx)
    ensures r == Missing(idx, dim)
    ensures |r| == dim - |idx|
    ensures StrictlyAscending(r)
    ensures forall v :: v in r <==> 0 <= v < dim && v !in idx
    ensures AllBelow(r, dim) && Distinct(r)
  {
    SentinelSort(idx, dim);
    CountInDistinct(idx, dim);
    MissingSpec(idx, dim);
    ZerosEntries(|idx|);
    var r := Sort(Scatter0(idx, dim))[|idx|..];
    assert r == Missing(idx, dim);
    assert AllBelow(r, dim) by {
      forall i | 0 <= i < |r| ensures 0 <= r[i] < dim {
        assert r[i] in r;
      }
    }
    r
  }

  /** When 0 is not kept, the 0 the scatter did not write is the head of the
      result rather than one of the dropped sentinels. */
  lemma ZeroNotKeptLeadsComplement(idx: seq<int>, dim: nat)
    requires AllBelow(idx, dim) && Distinct(idx)
    requires 0 < dim && 0 !in idx
    ensures |ComplementIdx(idx, dim)| > 0 && ComplementIdx(idx, dim)[0] == 0
  {
    var r := ComplementIdx(idx, dim);
    assert 0 in r;
    assert r[0] in r;
  }

  /** Kept indices followed by the values they miss list every index of
      [0, dim) exactly once: the two are disjoint, their union is [0, dim) and
      their sizes add up to dim. By ComplementIdx's contract this is the kept
      list followed by its complement. */
  lemma KeptThenMissingIsPermutation(idx: seq<int>, dim: nat)
    requires AllBelow(idx, dim) && Distinct(idx)
    ensures var all := idx + Missing(idx, dim);
      |all| == dim && Distinct(all) && AllBelow(all, dim)
    ensures forall v :: v in idx ==> v !in Missing(idx, dim)
    ensures forall v :: 0 <= v < dim ==> v in idx || v in Missing(idx, dim)
  {
    var c := Missing(idx, dim);
    var all := idx + c;
    MissingSpec(idx, dim);
    CountInDistinct(idx, dim);
    forall i, j | 0 <= i < j < |all| ensures all[i] != all[j] {
      if j < |idx| {
      } else if i >= |idx| {
        assert all[i] == c[i - |idx|] && all[j] == c[j - |idx|];
      } else {
        assert all[i] in idx;
        assert all[j] == c[j - |idx|];
        assert all[j] in c;
      }
    }
    forall i | 0 <= i < |all| ensures 0 <= all[i] < dim {
      if i >= |idx| {
        assert all[i] == c[i - |idx|];
        assert c[i - |idx|] in c;
      }
    }
  }

  /** Taking the complement twice gives back the kept indices, as a set. */
  lemma ComplementTwice(idx: seq<int>, dim: nat)
    requires AllBelow(idx, dim) && Distinct(idx)
    ensures var c := ComplementIdx(idx, dim);
      AllBelow(c, dim) && Distinct(c) &&
      forall v :: v in ComplementIdx(c, dim) <==> v in idx
  {
    var c := ComplementIdx(idx, dim);
    forall i | 0 <= i < |c| ensures 0 <= c[i] < dim {
      assert c[i] in c;
    }
    forall v | v in idx ensures 0 <= v < dim {
      var k :| 0 <= k < |idx| && idx[k] == v;
    }
  }
}
