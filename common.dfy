/** Shared vocabulary of the token-reduction model: error values, index-list
    predicates and Python's slicing rules. */
module Common {

  datatype Option<T> = None | Some(value: T)

  /** The ways a construction or a forward pass of the model aborts. */
  datatype Error =
    | RateLocMismatch        // keep-rate list and reduction-location list disagree in length
    | LocOutOfRange(loc: int) // a reduction location is not a valid index of the per-depth list
    | RateOutOfRange(rate: real) // a block's keep rate lies outside (0, 1]
    | NoCarrierSource        // cross-layer cache enabled with neither carrier tokens nor pooling
    | UnboundIndex           // reduction requested but nothing would be discarded (unbound local)
    | LeftTooSmall           // the number of kept tokens is below one
    | ShapeMismatch          // attention scores do not match the token sequence
    | EmptyCache             // concatenation of an empty cross-layer cache
    | NoRecoveryLayer        // the last recovery layer of an empty list is requested
    | NoTokens               // the first token of an empty sequence is requested

  datatype Result<T> = Ok(value: T) | Err(error: Error)

  /** No index occurs twice. */
  predicate Distinct(s: seq<int>) {
    forall i, j :: 0 <= i < j < |s| ==> s[i] != s[j]
  }

  /** Every index lies in [0, n). */
  predicate AllBelow(s: seq<int>, n: int) {
    forall i :: 0 <= i < |s| ==> 0 <= s[i] < n
  }

  /** How many of the values 0, 1, ..., d-1 occur in s. */
  function CountIn(s: seq<int>, d: nat): (c: nat)
    ensures c <= d
  {
    if d == 0 then 0 else CountIn(s, d - 1) + (if d - 1 in s then 1 else 0)
  }

  lemma {:induction false} CountInSnoc(s: seq<int>, v: int, d: nat)
    requires v !in s
    ensures CountIn(s + [v], d) == CountIn(s, d) + (if 0 <= v < d then 1 else 0)
  {
    if d > 0 {
      CountInSnoc(s, v, d - 1);
      assert (d - 1 in s + [v]) <==> (d - 1 in s || d - 1 == v);
    }
  }

  /** A list of distinct indices below d hits exactly |s| of the values below d. */
  lemma {:induction false} CountInDistinct(s: seq<int>, d: nat)
    requires Distinct(s) && AllBelow(s, d)
    ensures CountIn(s, d) == |s|
  {
    if |s| == 0 {
      CountInNone(s, d);
    } else {
      var init, last := s[..|s| - 1], s[|s| - 1];
      assert s == init + [last];
      assert last !in init by {
        forall i | 0 <= i < |init| ensures init[i] != last {
          assert init[i] == s[i];
        }
      }
      CountInDistinct(init, d);
      CountInSnoc(init, last, d);
    }
  }

  lemma {:induction false} CountInNone(s: seq<int>, d: nat)
    requires |s| == 0
    ensures CountIn(s, d) == 0
  {
    if d > 0 { CountInNone(s, d - 1); }
  }

  lemma {:induction false} CountInAll(s: seq<int>, d: nat)
    requires forall v :: 0 <= v < d ==> v in s
    ensures CountIn(s, d) == d
  {
    if d > 0 { CountInAll(s, d - 1); }
  }

  /** Fewer than n distinct indices below n leave some index below n out. */
  lemma Pigeonhole(s: seq<int>, n: nat)
    requires Distinct(s) && AllBelow(s, n) && |s| < n
    ensures exists j :: 0 <= j < n && j !in s
  {
    CountInDistinct(s, n);
    if forall v :: 0 <= v < n ==> v in s {
      CountInAll(s, n);
    }
  }

  /** A Python slice bound k on a list of length n: negative counts from the end,
      then the bound is clamped into [0, n]. */
  function PyBound(k: int, n: nat): (b: nat)
    ensures b <= n
    ensures 0 <= k <= n ==> b == k
    ensures k < 0 && -k <= n ==> b == n + k
  {
    if k < 0 then (if k + n < 0 then 0 else k + n)
    else if k > n then n
    else k
  }

  /** Python's s[lo:hi]: never fails, empty when the clamped bounds cross. */
  function PySlice<T>(s: seq<T>, lo: int, hi: int): (r: seq<T>)
    ensures |r| <= |s|
    ensures 0 <= lo <= hi <= |s| ==> r == s[lo..hi]
  {
    var a, b := PyBound(lo, |s|), PyBound(hi, |s|);
    if a <= b then s[a..b] else []
  }
}
