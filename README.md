# EViT token reduction, cross-layer cache and reduction schedule

This project models the token bookkeeping of the EViT vision transformer in
`models/evit.py`. The model covers four pieces:

- A Block with a keep rate below one keeps the `ceil(rate * (N - 1))`
  non-class tokens that the class token attends to most.
- The Block fuses the other tokens into one extra token, each weighted by its
  attention score. It then rebuilds the sequence as the class token, then the
  kept tokens in score order, then the fused token.
- `complement_idx` finds the discarded positions with a scatter-sort trick.
- `EViT.__init__` expands the sparse list of (location, keep rate) pairs into
  one rate per block. `EViT.forward` runs the blocks and maintains the
  cross-layer cache:
  - carrier tokens (a pooled token and/or the trailing `num_clr` carrier
    tokens) are cached after the blocks before the last recovery block;
  - a recovery block appends the whole cache to the sequence and empties it;
  - with the intermediate-feature head, the class token is recorded at
    reduction blocks and at the last block.

Modules:

- `Common`: errors, index-list predicates, Python slicing.
- `Complement`: `complement_idx`.
- `Selection`: `torch.topk`.
- `Tokens`: token vectors and the weighted fusion.
- `Block`: `Block.forward`'s reduction branch.
- `Schedule`: the schedule and cache settings of `EViT.__init__`.
- `Forward`: the block loop of `EViT.forward`. This is imperative: a
  `ForwardLoop` class whose fields are the loop's variables. It is proved
  equal to the fold `Iterate` of the per-block step `StageStep`, and the
  properties are proved about `Iterate`.

The expansion of the reduction schedule is also imperative: a `method` that
fills an array and is proved against `ScheduleSpec`.

Python exceptions (a failed `assert`, an `IndexError`, an unbound local,
`torch.cat` of an empty list) are values of `Common.Error` in a `Result`.
Keep rates and scores are exact `real`s, so `ceil` and the weighted sums are
the mathematical ones.

About index 0 in `complement_idx`:

- One might expect the 0 written by the scatter to collide with index 0, so
  that the result would be wrong when 0 is among the kept indices. It does
  not.
- After sorting, the first `K` entries are the written zeros. The rest is the
  ascending complement, which begins with 0 when 0 was not kept.
- `Complement.ComplementIdx` is proved equal to the ascending complement for
  every list of distinct kept indices below `dim`.
- `Complement.ZeroNotKeptLeadsComplement` shows that, when 0 is not kept,
  the unwritten 0 survives at the head of the result.

## Model

| member | source | states |
|---|---|---|
| Complement.Scatter0 | models/evit.py:69-77 | torch.scatter(arange(dim), -1, idx, 0) on one row. Complement.ScatterEntries states its meaning. |
| Complement.ScatterEntries | models/evit.py:69-77 | The scattered row has dim entries; position j holds 0 when j is kept and j otherwise. |
| Complement.Sort | models/evit.py:78 | torch.sort(descending=False) on one row, as an insertion sort. Complement.SortPermutesAndOrders proves it returns an ascending permutation. |
| Complement.Missing | models/evit.py:62 | The reference complement set(range(dim)) - set(idx), in ascending order. Complement.MissingSpec states its order, membership and length, and Complement.ComplementIdx proves complement_idx equal to it. |
| Complement.ComplementIdx | models/evit.py:60-81 | For K distinct kept indices below dim, scattering 0 at the kept positions of 0..dim-1, sorting, and dropping the first K entries gives exactly the indices of [0, dim) not kept: strictly ascending, dim - K of them, each below dim. |
| Complement.SentinelSort | models/evit.py:69-78 | The sorted scattered row is K zeros followed by the ascending complement. Every written 0 sorts before every unwritten position, including an unwritten 0. |
| Complement.ZeroNotKeptLeadsComplement | models/evit.py:77-80 | When position 0 is not kept, the result is non-empty and starts with 0, so the sentinel 0 is never confused with a real index. |
| Complement.KeptThenMissingIsPermutation | models/evit.py:60-81 | The kept indices followed by their complement list every index of [0, dim) exactly once: disjoint, covering, total length dim. |
| Complement.ComplementTwice | models/evit.py:60-81 | The complement of the complement holds exactly the kept indices. |
| Complement.SortPermutesAndOrders | models/evit.py:78 | The sort behind torch.sort returns an ascending permutation of its input. |
| Complement.AscendingUnique | models/evit.py:78 | Two ascending sequences with the same multiset are equal, so the sort result is determined. |
| Complement.MissingSpec | models/evit.py:60-81 | The reference complement is strictly ascending, holds exactly the values below d that are not kept, and has d - (number of values below d that are kept) entries. |
| Selection.TopK | models/evit.py:211 | torch.topk(largest=True, sorted=True) as a greedy selection returning k positions. Selection.TopKCorrect proves it answers the top-k query. |
| Selection.Best | models/evit.py:211 | Returns -1 exactly when every position is taken; otherwise an untaken position whose score no untaken position exceeds. |
| Selection.TopKExtend | models/evit.py:211 | Appending the best remaining position to a valid top-k answer gives a valid top-(k+1) answer. |
| Selection.TopKCorrect | models/evit.py:211 | The greedy selection answers torch.topk(largest=True, sorted=True): k distinct in-range positions, scores non-increasing in order, no unselected position scoring above a selected one. |
| Tokens.Fuse | models/evit.py:222 | torch.sum(tokens * weights, dim=1): each token scaled by its own score and added up, with no normalisation. Tokens.FuseChannel, Tokens.FuseOfEqualTokens and Tokens.FuseScalesWithWeights state its meaning. |
| Tokens.FuseChannel | models/evit.py:222 | Channel c of the fused token is the sum over discarded tokens of score times channel c. |
| Tokens.FuseOfEqualTokens | models/evit.py:222 | If every discarded token is v, the fused token is v times the total discarded score. The weights are not normalised. |
| Tokens.FuseScalesWithWeights | models/evit.py:222 | Multiplying every score by a multiplies each channel of the fused token by a. A weighted mean would be unchanged. |
| Block.Ceil | models/evit.py:206 | math.ceil: the least integer not below its argument (r <= c < r + 1). |
| Block.LeftTokens | models/evit.py:206 | left_tokens = ceil(keep_rate * (N - 1)). Block.LeftTokensRange bounds it between 1 and N - 1. |
| Block.Gather | models/evit.py:216-221 | torch.gather along the token axis: one entry per listed position, in listed order. Block.GatherPermutation shows that a full arrangement keeps the multiset. |
| Block.FusedToken | models/evit.py:219-222 | The extra token: the discarded non-class tokens fused with their own scores. Block.ReduceFusesDiscarded states it channel by channel. |
| Block.Reassemble | models/evit.py:223-225 | The class token, the kept tokens in top-k order, the fused token; the trace is the kept indices then -1. Block.ReassembleFires states its layout for any valid top-k answer. |
| Block.Fire | models/evit.py:209-225 | The reduction branch with left kept tokens: top-k, complement_idx, gather, fuse, reassemble. Block.FireFires states its result. |
| Block.LeftTokensRange | models/evit.py:190-208 | With a keep rate in (0, 1] and N >= 2, ceil(rate * (N - 1)) lies between 1 and N - 1, so the assert left_tokens >= 1 cannot fail. |
| Block.FireFires | models/evit.py:206-227 | The reduction branch keeps left tokens chosen by a valid top-k query and lists them after the unchanged class token, followed by the fused discarded tokens. The trace is the kept indices then -1; the complement is the ascending rest. |
| Block.ReassembleFires | models/evit.py:215-227 | Any valid top-k answer, with its complement, gives an output of that shape. The layout does not depend on how ties are broken. |
| Block.Reduce | models/evit.py:192-234 | The block fails exactly when reduction is requested and left_tokens < 1 or the scores do not match. A block that does not reduce returns the sequence unchanged with n_tokens = N - 1 and no trace or complement. |
| Block.ReduceFires | models/evit.py:204-234 | Whenever the block reduces, its output is the reduction branch with left = ceil(rate * (N - 1)). |
| Block.ReduceComplement | models/evit.py:218 | The discarded positions the block returns are complement_idx(kept, N - 1), and the kept positions are distinct and in range. |
| Block.ReducePartitions | models/evit.py:211-219 | Kept and discarded positions split the N - 1 non-class positions: disjoint, covering, sizes adding up to N - 1, and the discarded ones ascending. |
| Block.ReduceConservesTokens | models/evit.py:215-223 | The kept tokens in the output and the discarded tokens fused into the extra token are, as a multiset, exactly the input's non-class tokens. |
| Block.GatherPermutation | models/evit.py:216-219 | Gathering along any arrangement of all positions yields the same tokens as a multiset. |
| Block.ReduceFusesDiscarded | models/evit.py:219-223 | The last output token is, channel by channel, the sum over the discarded positions in ascending order of score times token. |
| Block.ReduceAsWritten | models/evit.py:204-234 | Block.forward as written fails with an unbound index exactly when the keep rate is below one and ceil(rate * (N - 1)) = N - 1, and otherwise agrees with Reduce. |
| Block.NextLength | models/evit.py:205-230 | The token count a block returns. Block.ReduceLength and Forward.EvitBlockLength prove the block's output has this length. |
| Block.UnboundIndexOnShortSequences | models/evit.py:204-207 | With a keep rate in (0, 1), every sequence whose N - 1 non-class tokens satisfy (N - 1)(1 - rate) < 1 hits the unbound index. The corrected block passes it through unchanged. |
| Block.UnboundIndexExample | models/evit.py:204-207 | Ten tokens at keep rate 0.9: ceil(0.9 * 9) = 9 = N - 1, and the as-written block fails. |
| Block.ReduceSucceeds | models/evit.py:190-234 | The corrected block never fails on a non-empty sequence with one score per non-class token. |
| Block.ReduceLength | models/evit.py:223-230 | The output has ceil(rate * (N - 1)) + 2 tokens when the block reduces and N otherwise, and is never empty when the input is not. |
| Block.ReduceKeepsClassToken | models/evit.py:223 | The class token stays at position 0 through every block. |
| Schedule.Broadcast | models/evit.py:330-332 | A single keep rate is repeated once per reduction location; any other rate list is left as it is. |
| Schedule.Slot | models/evit.py:339 | A location designates an entry of a depth-long list exactly when -depth <= loc < depth; negative locations count from the end. |
| Schedule.LastWrite | models/evit.py:337-339 | The rate of the last location designating block i, or 1. Schedule.LastWriteWins and Schedule.UnlistedBlockKeepsAll state both cases. |
| Schedule.ScheduleSpec | models/evit.py:337-339 | token_ratio_full as a value: one rate per block. Schedule.BuildSchedule's array loop is proved equal to it. |
| Schedule.BuildSchedule | models/evit.py:327-339 | Fails exactly on a length mismatch (after broadcasting) or an invalid location, naming the first invalid one. Otherwise returns, for every block, the rate of the last location designating it, or 1. |
| Schedule.UnlistedBlockKeepsAll | models/evit.py:337-339 | A block that no location designates gets keep rate 1. |
| Schedule.LastWriteWins | models/evit.py:338-339 | When several locations designate the same block, the last of them decides its rate. |
| Schedule.ScheduledRateIsListed | models/evit.py:337-339 | Every scheduled rate is 1 or the rate of a location designating that block. |
| Schedule.FirstBadRate | models/evit.py:190 | Finds a rate outside (0, 1], the first one in block order, exactly when one exists. |
| Schedule.BuildConfig | models/evit.py:327-421 | Succeeds exactly when the schedule is valid, every block's rate is in (0, 1], and the cache has a carrier source when enabled. The result holds the expanded schedule and the recovery layers (reduction locations, plus depth - 2 with recover-at-last), and satisfies ValidConfig. |
| Schedule.DefaultSchedule | models/evit.py:327-339 | The defaults on twelve blocks reduce at block 9 only, with rate 0.9. |
| Forward.BlockTokens | models/evit.py:192-234 | The token sequence a block returns, or its error. |
| Forward.EvitBlock | models/evit.py:192-234 | A block as a function of the sequence it receives: its attention yields the class-token scores, and it reduces at its keep rate. Forward.EvitBlockLength and Forward.EvitBlocksKeepFirst state its length and first token. |
| Forward.Blocks | models/evit.py:376-392 | self.blocks: one block per depth, block i with the scheduled keep rate token_ratio_full[i]. |
| Forward.Initial | models/evit.py:630-635 | The loop variables before the first block. Forward.ForwardLoop.constructor is proved to set them. |
| Forward.Recover | models/evit.py:649-653 | The recovery step as a value. Forward.ForwardLoop.RecoverStep is proved to perform it, and Forward.StageEffect and Forward.RecoverEmptyFails state its effect. |
| Forward.Carriers | models/evit.py:658-671 | One carrier entry: the pooled token of x[start:curr_num_pool] when included, then x[-num_clr:]. Forward.CarriersWidth states its width and tail. |
| Forward.CarrierEntry | models/evit.py:656-672 | The carrier entry the model caches, with its cache settings fixed. |
| Forward.Carry | models/evit.py:656-672 | The caching step as a value. Forward.ForwardLoop.CarryStep is proved to perform it, and Forward.CacheGrowth states its effect. |
| Forward.Record | models/evit.py:675-676 | The recording step as a value. Forward.ForwardLoop.RecordStep is proved to perform it. |
| Forward.StageStep | models/evit.py:638-676 | One loop iteration as a value: the block, then recovery, caching and recording. Forward.StageEffect states its effect, and Forward.ForwardLoop.Stage is proved to perform it. |
| Forward.Iterate | models/evit.py:637-676 | The loop as a fold of StageStep over the first k blocks, stopping at the first error. Forward.ForwardLoop.Run is proved equal to it, and the pass properties below are proved about it. |
| Forward.ForwardLoop.constructor | models/evit.py:630-635 | Sets the loop variables before the first block: an empty cache and cls_list, and a pooling bound that excludes the carrier tokens unless they are pooled. |
| Forward.ForwardLoop.RecoverStep | models/evit.py:649-653 | A recovery block sets curr_num_pool to the current length, appends the cache to the sequence and empties it; an empty cache is an error. |
| Forward.ForwardLoop.CarryStep | models/evit.py:656-672 | A block before the last recovery block caches the pooled token of x[start:curr_num_pool] and/or x[-num_clr:]. No carrier source, or no recovery layer, is an error. |
| Forward.ForwardLoop.RecordStep | models/evit.py:675-676 | A reduction block, and the last block, append the first token to cls_list. |
| Forward.ForwardLoop.Stage | models/evit.py:638-676 | One loop iteration updates the fields to StageStep of the old state, or reports its error. |
| Forward.ForwardLoop.Run | models/evit.py:637-676 | After the loop the fields equal Iterate over all blocks; the first failing block's error ends the pass. |
| Forward.ForwardPass | models/evit.py:630-676 | The forward pass's token bookkeeping is Iterate from the initial state over the model's blocks, block i reducing at its scheduled rate with the class-token attention it computes from the sequence it receives. |
| Forward.EvitBlockLength | models/evit.py:192-234 | The corrected EViT block (Block.Reduce) never fails on a non-empty sequence with one attention score per non-class token, and returns ceil(rate * (N - 1)) + 2 tokens when it reduces and N otherwise. |
| Forward.EvitBlocksKeepFirst | models/evit.py:223 | Every block of the model leaves the first token of a non-empty sequence in place. |
| Forward.FailureIsFinal | models/evit.py:637-676 | Once a block fails, the pass has failed with that error. |
| Forward.CarriersWidth | models/evit.py:659-671 | A carrier entry has one pooled token (when included) plus min(num_clr, length) trailing tokens, and ends with the sequence's trailing tokens. |
| Forward.StageEffect | models/evit.py:638-676 | A successful block reduces the sequence. A recovery block then appends the whole non-empty cache in caching order, sets curr_num_pool to the pre-append length and empties the cache. A block before the last recovery block adds one carrier entry, and a recording block records the first token. |
| Forward.StageLength | models/evit.py:638-652 | The length after a block is the block's own output length, plus every cached token at a recovery block. |
| Forward.CacheGrowth | models/evit.py:656-672 | At a non-recovery block before the last recovery block, the cache keeps its old entries and gains one entry of (gap ? 1 : 0) + min(num_clr, length) tokens. |
| Forward.CacheStaysEmpty | models/evit.py:649-656 | The last recovery block empties the cache, and a later block that finds it empty leaves it empty. |
| Forward.CacheEmptyAfterLastRecovery | models/evit.py:649-656 | From the last recovery block on, the cache is empty. |
| Forward.RecoverEmptyFails | models/evit.py:649-652 | A recovery block that finds the cache empty fails, as torch.cat of an empty list raises. |
| Forward.UnorderedRecoveryFails | models/evit.py:649-656 | If a recovery layer comes after the last listed one, it meets an empty cache and the pass fails. |
| Forward.StageWithoutClc | models/evit.py:649-656 | Without the cross-layer cache, a block changes neither the cache nor curr_num_pool. |
| Forward.NoCacheWithoutClc | models/evit.py:649-656 | Without the cross-layer cache, neither the cache nor curr_num_pool ever changes. |
| Forward.StageKeepsFirst | models/evit.py:638-676 | A block that keeps the first token keeps it first through the recovery append, and a recording block appends it to cls_list. |
| Forward.ClassTokenKept | models/evit.py:637-676 | When every block keeps the first token, the class token stays first through the pass, and cls_list gains one copy of it per recording block (each reduction location and the last block). |

## Left out

- Attention, MLP, norms, residuals, drop-path and layer scale change token values but not the layout. Blocks pass values through unchanged. A score list whose length does not match the sequence is the `ShapeMismatch` error.
- Floating point: rates, scores and sums are exact reals. `math.ceil` of a float product can differ from the exact ceiling when the product is within rounding error of an integer.
- The batch dimension: everything is modelled for one batch row, which is what every operation does row by row. The channel width is fixed at 768.
- The mean pooling of the cache's pooled token (`reduce(..., 'mean')`) is an abstract function `pool` of the pooled slice.
- Patch embedding, position embedding, register and carrier-token creation (`add_clr`), the classifier head, the intermediate-feature head's stacking and convolution, weight init, checkpoint loading, gradient checkpointing, and the debugging and visualisation outputs. These do not affect token bookkeeping. The input is the embedded sequence, and `num_clr` stands both for the `num_clr` argument checked in `EViT.__init__` and for the carrier tokens `add_clr` appends.
- Selection.TopK: torch.topk's order among equal scores is unspecified. The block's properties are stated for any valid top-k answer (`Selection.IsTopK`), and `TopK` is one such answer (ties to the lower index).
- The attention of block i is an abstract function `attn[i]` from the sequence the block receives to the class token's head-averaged attention scores (`cls_attn`); how the scores are computed is not modelled.
- Forward.EvitBlock: the loop runs the corrected block `Block.Reduce`, not `Block.ReduceAsWritten`, so a pass never raises the unbound-index error of the source's `Block.forward` (see Findings).

## Findings

| source | as written | input that shows it | evidently intended | confidence | as-written member | corrected member |
|---|---|---|---|---|---|---|
| models/evit.py:204-234 | With keep_rate < 1 and ceil(keep_rate * (N - 1)) == N - 1, neither branch binds `index`, so `if index is not None` raises UnboundLocalError. | N = 10 tokens, keep_rate = 0.9: ceil(0.9 * 9) = 9 = N - 1. More generally, any sequence with (N - 1)(1 - keep_rate) < 1. | A block that would discard nothing passes the sequence through unchanged, as with keep_rate = 1, returning n_tokens = N - 1 and no trace or complement. | not executed | Block.ReduceAsWritten, Block.UnboundIndexExample, Block.UnboundIndexOnShortSequences | Block.Reduce, Block.ReduceSucceeds |
