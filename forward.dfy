/** The block loop of EViT.forward with its cross-layer cache. After each
    block, a recovery block appends everything cached so far to the sequence
    and empties the cache; every block before the last recovery block then
    caches one entry of carrier tokens (a pooled token and/or the trailing
    carrier tokens); with the intermediate-feature head, the class token is
    recorded at every reduction block and at the last block. */
module Forward {
  import opened Common
  import opened Tokens
  import opened Block
  import opened Schedule

  /** The loop's variables: the token sequence x, cross_layer_cache,
      curr_num_pool and cls_list. */
  datatype State = State(x: seq<Vec>, cache: seq<seq<Vec>>, currNumPool: int, clsList: seq<Vec>)

  /** A block as the loop calls it: the sequence it returns for the sequence it
      receives, or the error it raises. */
  type BlockFn = seq<Vec> -> Result<seq<Vec>>

  /** The token sequence Block.forward returns, with keep rate rate and the
      head-averaged class-token attention scores. */
  function BlockTokens(x: seq<Vec>, scores: seq<real>, rate: real): Result<seq<Vec>>
    requires RateOk(rate)
  {
    var out := Reduce(x, scores, rate);
    if out.Err? then Err(out.error) else Ok(out.value.x)
  }

  /** An EViT block: its attention, attn, yields the class token's
      head-averaged attention over the sequence it receives, and the block
      reduces that sequence at its keep rate. */
  function EvitBlock(rate: real, attn: seq<Vec> -> seq<real>): BlockFn
    requires RateOk(rate)
  {
    x => BlockTokens(x, attn(x), rate)
  }

  /** self.blocks: block i keeps the scheduled rate of block i. */
  function Blocks(cfg: Config, attn: seq<seq<Vec> -> seq<real>>): (bs: seq<BlockFn>)
    requires RatesOk(cfg) && |attn| == cfg.depth
    ensures |bs| == cfg.depth
  {
    seq(cfg.depth, i requires 0 <= i < cfg.depth => EvitBlock(cfg.rates[i], attn[i]))
  }

  /** torch.cat(cross_layer_cache, dim=1): the cached entries in the order they
      were cached. */
  function Flatten(cache: seq<seq<Vec>>): seq<Vec> {
    if cache == [] then [] else Flatten(cache[..|cache| - 1]) + cache[|cache| - 1]
  }

  /** The total number of cached tokens. */
  function CachedTokens(cache: seq<seq<Vec>>): nat {
    if cache == [] then 0 else CachedTokens(cache[..|cache| - 1]) + |cache[|cache| - 1]|
  }

  lemma {:induction false} FlattenLength(cache: seq<seq<Vec>>)
    ensures |Flatten(cache)| == CachedTokens(cache)
  {
    if cache != [] {
      FlattenLength(cache[..|cache| - 1]);
    }
  }

  /** The state before the first block: an empty cache, and a pooling bound
      that leaves out the trailing carrier tokens unless they are pooled too. */
  function Initial(x0: seq<Vec>, numClr: nat, poolClr: bool): State {
    State(x0, [], if numClr > 0 && !poolClr then |x0| - numClr else |x0|, [])
  }

  function Last(s: seq<int>): int
    requires s != []
  {
    s[|s| - 1]
  }

  /** The carrier tokens cached after a block: the pooled token of
      x[start:curr_num_pool] (start 0 when the class token is pooled, else 1)
      when the pooled token is included, then x[-num_clr:] when carrier tokens
      exist. */
  function Carriers(x: seq<Vec>, currNumPool: int, gap: bool, poolCls: bool, numClr: nat,
                    pool: seq<Vec> -> Vec): seq<Vec>
  {
    (if gap then [pool(PySlice(x, if poolCls then 0 else 1, currNumPool))] else []) +
    (if numClr > 0 then PySlice(x, -(numClr as int), |x|) else [])
  }

  /** One pooled token plus num_clr carrier tokens, fewer only when the
      sequence is shorter than num_clr. */
  lemma CarriersWidth(x: seq<Vec>, currNumPool: int, gap: bool, poolCls: bool, numClr: nat,
                      pool: seq<Vec> -> Vec)
    ensures var w := |Carriers(x, currNumPool, gap, poolCls, numClr, pool)|;
      w == (if gap then 1 else 0) + (if numClr <= |x| then numClr else |x|)
    ensures numClr > 0 ==> var c := Carriers(x, currNumPool, gap, poolCls, numClr, pool);
      c[|c| - (if numClr <= |x| then numClr else |x|)..] == x[|x| - (if numClr <= |x| then numClr else |x|)..]
  {
  }

  /** How the loop builds a cache entry from the sequence and curr_num_pool. */
  type CarrierFn = (seq<Vec>, int) -> seq<Vec>

  /** The entry EViT.forward caches, with pool standing for the mean over the
      pooled window. */
  function CarrierEntry(cfg: Config, numClr: nat, pool: seq<Vec> -> Vec): CarrierFn {
    (x, currNumPool) => Carriers(x, currNumPool, cfg.includeGap, cfg.poolCls, numClr, pool)
  }

  /** The recovery step of block i: the cache is appended to the sequence and
      emptied, curr_num_pool becoming the length before the append. */
  function Recover(cfg: Config, s: State, i: int): Result<State> {
    if cfg.clc && i in cfg.recoveryLayers then
      if s.cache == [] then Err(EmptyCache)
      else Ok(State(s.x + Flatten(s.cache), [], |s.x|, s.clsList))
    else Ok(s)
  }

  /** The caching step of block i. */
  function Carry(cfg: Config, numClr: nat, entry: CarrierFn, s: State, i: int): Result<State> {
    if !cfg.clc then Ok(s)
    else if cfg.recoveryLayers == [] then Err(NoRecoveryLayer)
    else if i < Last(cfg.recoveryLayers) then
      if !cfg.includeGap && numClr == 0 then Err(NoCarrierSource)
      else Ok(s.(cache := s.cache + [entry(s.x, s.currNumPool)]))
    else Ok(s)
  }

  /** Whether block i records the class token. */
  predicate Records(cfg: Config, i: int) {
    cfg.ifaHead && (i in cfg.reductionLoc || i == cfg.depth - 1)
  }

  /** The recording step of block i. */
  function Record(cfg: Config, s: State, i: int): Result<State> {
    if Records(cfg, i) then
      if s.x == [] then Err(NoTokens) else Ok(s.(clsList := s.clsList + [s.x[0]]))
    else Ok(s)
  }

  /** Block i, blk, and the bookkeeping after it. */
  function StageStep(cfg: Config, numClr: nat, entry: CarrierFn, blk: BlockFn, s: State, i: nat): Result<State> {
    var y := blk(s.x);
    if y.Err? then Err(y.error)
    else
      var r := Recover(cfg, s.(x := y.value), i);
      if r.Err? then r
      else
        var c := Carry(cfg, numClr, entry, r.value, i);
        if c.Err? then c else Record(cfg, c.value, i)
  }

  /** The state after the first k blocks, starting from s0. */
  function Iterate(cfg: Config, numClr: nat, entry: CarrierFn, blocks: seq<BlockFn>, s0: State, k: nat): Result<State>
    requires k <= |blocks|
  {
    if k == 0 then Ok(s0)
    else
      var prev := Iterate(cfg, numClr, entry, blocks, s0, k - 1);
      if prev.Err? then prev else StageStep(cfg, numClr, entry, blocks[k - 1], prev.value, k - 1)
  }

  /** A successful k-th state comes from a successful (k-1)-th state by one
      block. */
  lemma IterateStep(cfg: Config, numClr: nat, entry: CarrierFn, blocks: seq<BlockFn>, s0: State, k: nat)
    requires 0 < k <= |blocks|
    requires Iterate(cfg, numClr, entry, blocks, s0, k).Ok?
    ensures Iterate(cfg, numClr, entry, blocks, s0, k - 1).Ok?
    ensures Iterate(cfg, numClr, entry, blocks, s0, k) ==
      StageStep(cfg, numClr, entry, blocks[k - 1], Iterate(cfg, numClr, entry, blocks, s0, k - 1).value, k - 1)
  {
  }

  /** Once a block fails, the pass has failed with that error. */
  lemma {:induction false} FailureIsFinal(cfg: Config, numClr: nat, entry: CarrierFn, blocks: seq<BlockFn>,
                                          s0: State, k: nat, m: nat)
    requires k <= m <= |blocks|
    requires Iterate(cfg, numClr, entry, blocks, s0, k).Err?
    ensures Iterate(cfg, numClr, entry, blocks, s0, m) == Iterate(cfg, numClr, entry, blocks, s0, k)
  {
    if m > k {
      FailureIsFinal(cfg, numClr, entry, blocks, s0, k, m - 1);
      assert Iterate(cfg, numClr, entry, blocks, s0, m - 1).Err?;
    }
  }

  /** The loop of EViT.forward as an object whose fields are the loop's
      variables. */
  class ForwardLoop {
    const cfg: Config
    const numClr: nat
    const blocks: seq<BlockFn>
    var x: seq<Vec>
    var cache: seq<seq<Vec>>
    var currNumPool: int
    var clsList: seq<Vec>

    function Snapshot(): State
      reads this
    {
      State(x, cache, currNumPool, clsList)
    }

    /** The variables as they are set before the loop. */
    constructor (cfg: Config, numClr: nat, blocks: seq<BlockFn>, x0: seq<Vec>)
      ensures this.cfg == cfg && this.numClr == numClr && this.blocks == blocks
      ensures Snapshot() == Initial(x0, numClr, cfg.poolClr)
    {
      this.cfg := cfg;
      this.numClr := numClr;
      this.blocks := blocks;
      x := x0;
      cache := [];
      currNumPool := if numClr > 0 && !cfg.poolClr then |x0| - numClr else |x0|;
      clsList := [];
    }

    /** One pass of the loop body for block i: the block, then the recovery,
        caching and recording steps. */
    method Stage(i: nat, pool: seq<Vec> -> Vec) returns (err: Option<Error>)
      requires i < |blocks|
      modifies this
      ensures var r := StageStep(cfg, numClr, CarrierEntry(cfg, numClr, pool), blocks[i], old(Snapshot()), i);
        && (err.None? <==> r.Ok?)
        && (r.Ok? ==> Snapshot() == r.value)
        && (r.Err? ==> err == Some(r.error))
    {
      var y := blocks[i](x);
      if y.Err? {
        return Some(y.error);
      }
      x := y.value;
      err := RecoverStep(i);
      if err.None? {
        err := CarryStep(i, pool);
        if err.None? {
          err := RecordStep(i);
        }
      }
    }

    /** A recovery block appends the cache to the sequence and empties it. */
    method RecoverStep(i: nat) returns (err: Option<Error>)
      modifies this
      ensures var r := Recover(cfg, old(Snapshot()), i);
        && (err.None? <==> r.Ok?)
        && (r.Ok? ==> Snapshot() == r.value)
        && (r.Err? ==> err == Some(r.error))
    {
      if cfg.clc && i in cfg.recoveryLayers {
        currNumPool := |x|;
        if cache == [] {
          return Some(EmptyCache);
        }
        x := x + Flatten(cache);
        cache := [];
      }
      return None;
    }

    /** A block before the last recovery block caches its carrier tokens. */
    method CarryStep(i: nat, pool: seq<Vec> -> Vec) returns (err: Option<Error>)
      modifies this
      ensures var r := Carry(cfg, numClr, CarrierEntry(cfg, numClr, pool), old(Snapshot()), i);
        && (err.None? <==> r.Ok?)
        && (r.Ok? ==> Snapshot() == r.value)
        && (r.Err? ==> err == Some(r.error))
    {
      if cfg.clc {
        if cfg.recoveryLayers == [] {
          return Some(NoRecoveryLayer);
        }
        if i < cfg.recoveryLayers[|cfg.recoveryLayers| - 1] {
          var pooled: seq<Vec> := [];
          if cfg.includeGap {
            var start := if cfg.poolCls then 0 else 1;
            pooled := [pool(PySlice(x, start, currNumPool))];
          }
          var trailing: seq<Vec> := [];
          if numClr > 0 {
            trailing := PySlice(x, -(numClr as int), |x|);
          }
          if !cfg.includeGap && numClr == 0 {
            return Some(NoCarrierSource);
          }
          cache := cache + [pooled + trailing];
        }
      }
      return None;
    }

    /** A reduction block, and the last block, record the class token. */
    method RecordStep(i: nat) returns (err: Option<Error>)
      modifies this
      ensures var r := Record(cfg, old(Snapshot()), i);
        && (err.None? <==> r.Ok?)
        && (r.Ok? ==> Snapshot() == r.value)
        && (r.Err? ==> err == Some(r.error))
    {
      if cfg.ifaHead && (i in cfg.reductionLoc || i == cfg.depth - 1) {
        if x == [] {
          return Some(NoTokens);
        }
        clsList := clsList + [x[0]];
      }
      return None;
    }

    /** The loop over all blocks; the first failing block ends the pass. */
    method Run(pool: seq<Vec> -> Vec) returns (r: Result<State>)
      modifies this
      ensures r == Iterate(cfg, numClr, CarrierEntry(cfg, numClr, pool), blocks, old(Snapshot()), |blocks|)
      ensures r.Ok? ==> Snapshot() == r.value
    {
      ghost var entry := CarrierEntry(cfg, numClr, pool);
      ghost var s0 := Snapshot();
      var i := 0;
      while i < |blocks|
        invariant 0 <= i <= |blocks|
        invariant Iterate(cfg, numClr, entry, blocks, s0, i) == Ok(Snapshot())
      {
        ghost var before := Snapshot();
        var err := Stage(i, pool);
        assert Iterate(cfg, numClr, entry, blocks, s0, i + 1) == StageStep(cfg, numClr, entry, blocks[i], before, i);
        if err.Some? {
          FailureIsFinal(cfg, numClr, entry, blocks, s0, i + 1, |blocks|);
          return Err(err.value);
        }
        i := i + 1;
      }
      return Ok(Snapshot());
    }
  }

  /** EViT.forward's token bookkeeping from the embedded sequence x0 (class
      token, register tokens, patch tokens, then num_clr carrier tokens), block
      i computing its scores with attn[i]. */
  method ForwardPass(cfg: Config, numClr: nat, pool: seq<Vec> -> Vec, attn: seq<seq<Vec> -> seq<real>>, x0: seq<Vec>)
    returns (r: Result<State>)
    requires RatesOk(cfg) && |attn| == cfg.depth
    ensures r == Iterate(cfg, numClr, CarrierEntry(cfg, numClr, pool), Blocks(cfg, attn), Initial(x0, numClr, cfg.poolClr), cfg.depth)
  {
    var loop := new ForwardLoop(cfg, numClr, Blocks(cfg, attn), x0);
    r := loop.Run(pool);
  }

  /** What one block does to the loop's variables, when it succeeds: the block
      returns its sequence; a recovery block then appends the whole cache
      (which must be non-empty) in caching order, sets curr_num_pool to the
      length before the append and empties the cache; a block before the last
      recovery block caches one carrier entry; a recording block records the
      first token. */
  lemma StageEffect(cfg: Config, numClr: nat, entry: CarrierFn, blk: BlockFn, s: State, i: nat)
    requires StageStep(cfg, numClr, entry, blk, s, i).Ok?
    ensures var y := blk(s.x);
      var t := StageStep(cfg, numClr, entry, blk, s, i).value;
      var rec := cfg.clc && i in cfg.recoveryLayers;
      && y.Ok?
      && (rec ==> s.cache != [])
      && t.x == y.value + (if rec then Flatten(s.cache) else [])
      && t.currNumPool == (if rec then |y.value| else s.currNumPool)
      && (cfg.clc ==> cfg.recoveryLayers != [])
      && t.cache == (if rec then [] else s.cache) +
           (if cfg.clc && i < Last(cfg.recoveryLayers)
            then [entry(t.x, t.currNumPool)] else [])
      && (Records(cfg, i) ==> t.x != [])
      && t.clsList == s.clsList + (if Records(cfg, i) then [t.x[0]] else [])
  {
  }

  /** The sequence after a block: what the block returned, plus every cached
      token at a recovery block. */
  lemma StageLength(cfg: Config, numClr: nat, entry: CarrierFn, blk: BlockFn, s: State, i: nat)
    requires StageStep(cfg, numClr, entry, blk, s, i).Ok?
    ensures blk(s.x).Ok?
    ensures |StageStep(cfg, numClr, entry, blk, s, i).value.x| ==
      |blk(s.x).value| + (if cfg.clc && i in cfg.recoveryLayers then CachedTokens(s.cache) else 0)
  {
    StageEffect(cfg, numClr, entry, blk, s, i);
    FlattenLength(s.cache);
  }

  /** An EViT block returns NextLength tokens and never fails on a non-empty
      sequence with one score per non-class token. */
  lemma EvitBlockLength(rate: real, attn: seq<Vec> -> seq<real>, x: seq<Vec>)
    requires RateOk(rate)
    ensures |x| >= 1 && |attn(x)| == |x| - 1 ==> EvitBlock(rate, attn)(x).Ok?
    ensures EvitBlock(rate, attn)(x).Ok? ==> |EvitBlock(rate, attn)(x).value| == NextLength(rate, |x|)
  {
    if |x| >= 1 && |attn(x)| == |x| - 1 {
      ReduceSucceeds(x, attn(x), rate);
    }
    if Reduce(x, attn(x), rate).Ok? {
      ReduceLength(x, attn(x), rate);
    }
  }

  /** blk never moves or removes the first token of a non-empty sequence. */
  ghost predicate KeepsFirst(blk: BlockFn) {
    forall x: seq<Vec> :: |x| >= 1 && blk(x).Ok? ==> |blk(x).value| >= 1 && blk(x).value[0] == x[0]
  }

  /** Every EViT block keeps the class token first. */
  lemma EvitBlocksKeepFirst(cfg: Config, attn: seq<seq<Vec> -> seq<real>>)
    requires RatesOk(cfg) && |attn| == cfg.depth
    ensures forall j :: 0 <= j < cfg.depth ==> KeepsFirst(Blocks(cfg, attn)[j])
  {
    forall j | 0 <= j < cfg.depth ensures KeepsFirst(Blocks(cfg, attn)[j]) {
      var blk := Blocks(cfg, attn)[j];
      assert blk == EvitBlock(cfg.rates[j], attn[j]);
      forall x: seq<Vec> | |x| >= 1 && blk(x).Ok? ensures |blk(x).value| >= 1 && blk(x).value[0] == x[0] {
        ReduceKeepsClassToken(x, attn[j](x), cfg.rates[j]);
      }
    }
  }

  /** Each carrier entry holds the pooled token, if any, and num_clr trailing
      tokens, so the cache grows by that many tokens at a non-recovery block
      before the last recovery block. */
  lemma CacheGrowth(cfg: Config, numClr: nat, pool: seq<Vec> -> Vec, blk: BlockFn, s: State, i: nat)
    requires StageStep(cfg, numClr, CarrierEntry(cfg, numClr, pool), blk, s, i).Ok?
    requires cfg.clc && i !in cfg.recoveryLayers && cfg.recoveryLayers != [] && i < Last(cfg.recoveryLayers)
    ensures var t := StageStep(cfg, numClr, CarrierEntry(cfg, numClr, pool), blk, s, i).value;
      && t.cache[..|s.cache|] == s.cache
      && |t.cache| == |s.cache| + 1
      && CachedTokens(t.cache) == CachedTokens(s.cache) + (if cfg.includeGap then 1 else 0) +
           (if numClr <= |t.x| then numClr else |t.x|)
  {
    var entry := CarrierEntry(cfg, numClr, pool);
    StageEffect(cfg, numClr, entry, blk, s, i);
    var t := StageStep(cfg, numClr, entry, blk, s, i).value;
    CarriersWidth(t.x, t.currNumPool, cfg.includeGap, cfg.poolCls, numClr, pool);
    assert t.cache[..|s.cache|] == s.cache;
  }

  /** Block k - 1 leaves the cache empty once the last recovery block has run:
      the last recovery block empties it, and a later block finds it empty and
      caches nothing. */
  lemma CacheStaysEmpty(cfg: Config, numClr: nat, entry: CarrierFn, blk: BlockFn, p: State, k: nat)
    requires 0 < k && StageStep(cfg, numClr, entry, blk, p, k - 1).Ok?
    requires cfg.clc && cfg.recoveryLayers != []
    requires Last(cfg.recoveryLayers) < k - 1 ==> p.cache == []
    ensures Last(cfg.recoveryLayers) < k ==> StageStep(cfg, numClr, entry, blk, p, k - 1).value.cache == []
  {
    StageEffect(cfg, numClr, entry, blk, p, k - 1);
    assert Last(cfg.recoveryLayers) in cfg.recoveryLayers;
  }

  /** From the last recovery block on, the cache is empty: that block empties
      it and no later block caches anything. */
  lemma {:induction false} CacheEmptyAfterLastRecovery(cfg: Config, numClr: nat, entry: CarrierFn,
                                                       blocks: seq<BlockFn>, s0: State, k: nat)
    requires k <= |blocks| && cfg.clc && cfg.recoveryLayers != [] && 0 <= Last(cfg.recoveryLayers)
    requires Iterate(cfg, numClr, entry, blocks, s0, k).Ok?
    ensures Last(cfg.recoveryLayers) < k ==> Iterate(cfg, numClr, entry, blocks, s0, k).value.cache == []
  {
    if k > 0 {
      IterateStep(cfg, numClr, entry, blocks, s0, k);
      CacheEmptyAfterLastRecovery(cfg, numClr, entry, blocks, s0, k - 1);
      CacheStaysEmpty(cfg, numClr, entry, blocks[k - 1], Iterate(cfg, numClr, entry, blocks, s0, k - 1).value, k);
    }
  }

  /** A recovery block that finds the cache empty fails. */
  lemma RecoverEmptyFails(cfg: Config, numClr: nat, entry: CarrierFn, blk: BlockFn, s: State, i: nat)
    requires cfg.clc && i in cfg.recoveryLayers && s.cache == []
    ensures StageStep(cfg, numClr, entry, blk, s, i).Err?
  {
    if StageStep(cfg, numClr, entry, blk, s, i).Ok? {
      StageEffect(cfg, numClr, entry, blk, s, i);
    }
  }

  /** A recovery block listed after a smaller last recovery block finds the
      cache empty, and torch.cat of the empty list fails: the pass cannot
      succeed. */
  lemma UnorderedRecoveryFails(cfg: Config, numClr: nat, entry: CarrierFn, blocks: seq<BlockFn>,
                               s0: State, j: nat)
    requires cfg.clc && cfg.recoveryLayers != [] && 0 <= Last(cfg.recoveryLayers) < j < |blocks|
    requires j in cfg.recoveryLayers
    ensures Iterate(cfg, numClr, entry, blocks, s0, |blocks|).Err?
  {
    var prev := Iterate(cfg, numClr, entry, blocks, s0, j);
    assert Iterate(cfg, numClr, entry, blocks, s0, j + 1) ==
      if prev.Err? then prev else StageStep(cfg, numClr, entry, blocks[j], prev.value, j);
    if prev.Ok? {
      CacheEmptyAfterLastRecovery(cfg, numClr, entry, blocks, s0, j);
      RecoverEmptyFails(cfg, numClr, entry, blocks[j], prev.value, j);
    }
    FailureIsFinal(cfg, numClr, entry, blocks, s0, j + 1, |blocks|);
  }

  /** Without the cross-layer cache, a block leaves the cache and the pooling
      bound alone. */
  lemma StageWithoutClc(cfg: Config, numClr: nat, entry: CarrierFn, blk: BlockFn, s: State, i: nat)
    requires !cfg.clc && StageStep(cfg, numClr, entry, blk, s, i).Ok?
    ensures var t := StageStep(cfg, numClr, entry, blk, s, i).value;
      t.cache == s.cache && t.currNumPool == s.currNumPool
  {
    StageEffect(cfg, numClr, entry, blk, s, i);
  }

  /** Without the cross-layer cache, the cache is never touched. */
  lemma {:induction false} NoCacheWithoutClc(cfg: Config, numClr: nat, entry: CarrierFn, blocks: seq<BlockFn>,
                                             s0: State, k: nat)
    requires k <= |blocks| && !cfg.clc
    requires Iterate(cfg, numClr, entry, blocks, s0, k).Ok?
    ensures Iterate(cfg, numClr, entry, blocks, s0, k).value.cache == s0.cache
    ensures Iterate(cfg, numClr, entry, blocks, s0, k).value.currNumPool == s0.currNumPool
  {
    if k > 0 {
      IterateStep(cfg, numClr, entry, blocks, s0, k);
      var prev := Iterate(cfg, numClr, entry, blocks, s0, k - 1);
      NoCacheWithoutClc(cfg, numClr, entry, blocks, s0, k - 1);
      StageWithoutClc(cfg, numClr, entry, blocks[k - 1], prev.value, k - 1);
    }
  }

  /** A block that keeps the first token keeps it first through the
      bookkeeping, and a recording block records it. */
  lemma StageKeepsFirst(cfg: Config, numClr: nat, entry: CarrierFn, blk: BlockFn, s: State, i: nat)
    requires KeepsFirst(blk) && |s.x| >= 1
    requires StageStep(cfg, numClr, entry, blk, s, i).Ok?
    ensures var t := StageStep(cfg, numClr, entry, blk, s, i).value;
      && |t.x| >= 1 && t.x[0] == s.x[0]
      && t.clsList == s.clsList + (if Records(cfg, i) then [s.x[0]] else [])
  {
    StageEffect(cfg, numClr, entry, blk, s, i);
  }

  /** How many of the first k blocks record the class token. */
  function RecordCount(cfg: Config, k: nat): nat {
    if k == 0 then 0 else RecordCount(cfg, k - 1) + (if Records(cfg, k - 1) then 1 else 0)
  }

  /** n copies of the token c. */
  function Copies(c: Vec, n: nat): (r: seq<Vec>)
    ensures |r| == n && forall j :: 0 <= j < n ==> r[j] == c
  {
    if n == 0 then [] else Copies(c, n - 1) + [c]
  }

  /** Block k - 1 adds one copy when it records. */
  lemma RecordCopies(cfg: Config, c: Vec, k: nat)
    requires 0 < k
    ensures Copies(c, RecordCount(cfg, k)) == Copies(c, RecordCount(cfg, k - 1)) + (if Records(cfg, k - 1) then [c] else [])
  {
  }

  /** The inductive step of ClassTokenKept, for block k - 1. */
  lemma ClassTokenStep(cfg: Config, numClr: nat, entry: CarrierFn, blk: BlockFn, p: State, k: nat,
                       c: Vec, pre: seq<Vec>)
    requires 0 < k && KeepsFirst(blk)
    requires StageStep(cfg, numClr, entry, blk, p, k - 1).Ok?
    requires |p.x| >= 1 && p.x[0] == c && p.clsList == pre + Copies(c, RecordCount(cfg, k - 1))
    ensures var t := StageStep(cfg, numClr, entry, blk, p, k - 1).value;
      |t.x| >= 1 && t.x[0] == c && t.clsList == pre + Copies(c, RecordCount(cfg, k))
  {
    StageKeepsFirst(cfg, numClr, entry, blk, p, k - 1);
    RecordCopies(cfg, c, k);
  }

  /** When every block keeps the first token, the class token stays first
      through the pass, and cls_list gains one copy of it at each recording
      block. */
  lemma {:induction false} ClassTokenKept(cfg: Config, numClr: nat, entry: CarrierFn, blocks: seq<BlockFn>,
                                          s0: State, k: nat)
    requires k <= |blocks| && |s0.x| >= 1
    requires forall j :: 0 <= j < |blocks| ==> KeepsFirst(blocks[j])
    requires Iterate(cfg, numClr, entry, blocks, s0, k).Ok?
    ensures var t := Iterate(cfg, numClr, entry, blocks, s0, k).value;
      |t.x| >= 1 && t.x[0] == s0.x[0] && t.clsList == s0.clsList + Copies(s0.x[0], RecordCount(cfg, k))
  {
    if k > 0 {
      IterateStep(cfg, numClr, entry, blocks, s0, k);
      ClassTokenKept(cfg, numClr, entry, blocks, s0, k - 1);
      ClassTokenStep(cfg, numClr, entry, blocks[k - 1], Iterate(cfg, numClr, entry, blocks, s0, k - 1).value, k,
                     s0.x[0], s0.clsList);
    }
  }
}
