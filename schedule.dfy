/** The reduction schedule of EViT.__init__: the sparse list of (location,
    keep rate) pairs is broadcast, checked and expanded into one keep rate per
    block, every block not listed keeping all its tokens; the cross-layer cache
    settings are read and checked alongside. */
module Schedule {
  import opened Common

  /** The settings read from the argument namespace, with their defaults
      already applied (keep_rate [0.9], reduction_loc [9], flags False,
      num_clr 0). */
  datatype Args = Args(
    keepRate: seq<real>,
    reductionLoc: seq<int>,
    clc: bool,
    clcIncludeGap: bool,
    clcPoolCls: bool,
    clcPoolClr: bool,
    clcRecoverAtLast: bool,
    numClr: int,
    ifaHead: bool)

  /** What the constructor keeps: one keep rate per block, the reduction and
      recovery locations, and the cache flags. */
  datatype Config = Config(
    depth: nat,
    rates: seq<real>,
    reductionLoc: seq<int>,
    recoveryLayers: seq<int>,
    clc: bool,
    includeGap: bool,
    poolCls: bool,
    poolClr: bool,
    ifaHead: bool)

  /** A keep rate a Block accepts: 0 < rate <= 1. */
  predicate RateOk(rate: real) {
    0.0 < rate <= 1.0
  }

  /** A configuration as the constructor leaves it: one rate per block, each
      one accepted by its block, and a carrier source whenever the cache is on. */
  predicate ValidConfig(cfg: Config, numClr: int) {
    RatesOk(cfg) && (cfg.clc ==> numClr != 0 || cfg.includeGap)
  }

  /** One accepted keep rate per block. */
  predicate RatesOk(cfg: Config) {
    && |cfg.rates| == cfg.depth
    && (forall i :: 0 <= i < cfg.depth ==> RateOk(cfg.rates[i]))
  }

  /** A single keep rate stands for every reduction location. */
  function Broadcast(rates: seq<real>, locs: seq<int>): (r: seq<real>)
    ensures |rates| == 1 ==> |r| == |locs| && forall k :: 0 <= k < |r| ==> r[k] == rates[0]
    ensures |rates| != 1 ==> r == rates
  {
    if |rates| == 1 then seq(|locs|, _ => rates[0]) else rates
  }

  /** The entry of a list of length n that Python's list[loc] designates:
      negative locations count from the end; anything else is an IndexError. */
  function Slot(loc: int, n: nat): (r: Option<nat>)
    ensures r.Some? <==> -(n as int) <= loc < n
    ensures r.Some? ==> r.value < n && (r.value == loc || r.value == loc + n)
  {
    if 0 <= loc < n then Some(loc)
    else if -(n as int) <= loc < 0 then Some(loc + n)
    else None
  }

  /** The keep rate that block i ends up with after the writes
      token_ratio_full[locs[k]] = rates[k], k = 0, 1, ...: the rate of the last
      write to slot i, or 1 when no location designates i. */
  function LastWrite(rates: seq<real>, locs: seq<int>, i: nat, depth: nat): real
    requires |rates| == |locs|
  {
    if locs == [] then 1.0
    else if Slot(locs[|locs| - 1], depth) == Some(i) then rates[|rates| - 1]
    else LastWrite(rates[..|rates| - 1], locs[..|locs| - 1], i, depth)
  }

  /** token_ratio_full as a value. */
  function ScheduleSpec(rates: seq<real>, locs: seq<int>, depth: nat): (r: seq<real>)
    requires |rates| == |locs|
    ensures |r| == depth
  {
    seq(depth, i requires 0 <= i < depth => LastWrite(rates, locs, i, depth))
  }

  /** All locations are valid indices of a list of length depth. */
  predicate LocsInRange(locs: seq<int>, depth: nat) {
    forall k :: 0 <= k < |locs| ==> Slot(locs[k], depth).Some?
  }

  /** The schedule expansion. The rate list is broadcast when it has one entry
      and must then match the locations in length; token_ratio_full starts as
      depth ones and each location overwrites its slot with its rate, the
      first invalid location raising. */
  method BuildSchedule(depth: nat, keepRate: seq<real>, locs: seq<int>) returns (r: Result<seq<real>>)
    ensures r.Err? <==> |Broadcast(keepRate, locs)| != |locs| || !LocsInRange(locs, depth)
    ensures r.Err? && |Broadcast(keepRate, locs)| != |locs| ==> r.error == RateLocMismatch
    ensures r.Err? && |Broadcast(keepRate, locs)| == |locs| ==>
              exists k :: 0 <= k < |locs| && r.error == LocOutOfRange(locs[k]) &&
                Slot(locs[k], depth).None? && LocsInRange(locs[..k], depth)
    ensures r.Ok? ==> r.value == ScheduleSpec(Broadcast(keepRate, locs), locs, depth)
  {
    var rates := Broadcast(keepRate, locs);
    if |rates| != |locs| {
      return Err(RateLocMismatch);
    }
    var full := new real[depth](_ => 1.0);
    var k := 0;
    while k < |locs|
      invariant 0 <= k <= |locs|
      invariant LocsInRange(locs[..k], depth)
      invariant forall i :: 0 <= i < depth ==> full[i] == LastWrite(rates[..k], locs[..k], i, depth)
    {
      var slot := Slot(locs[k], depth);
      if slot.None? {
        assert !LocsInRange(locs, depth);
        return Err(LocOutOfRange(locs[k]));
      }
      full[slot.value] := rates[k];
      assert rates[..k + 1][..k] == rates[..k] && locs[..k + 1][..k] == locs[..k];
      k := k + 1;
    }
    assert rates[..k] == rates && locs[..k] == locs;
    return Ok(full[..]);
  }

  /** A block that no location designates keeps all its tokens. */
  lemma {:induction false} UnlistedBlockKeepsAll(rates: seq<real>, locs: seq<int>, i: nat, depth: nat)
    requires |rates| == |locs| && i < depth
    requires forall k :: 0 <= k < |locs| ==> Slot(locs[k], depth) != Some(i)
    ensures ScheduleSpec(rates, locs, depth)[i] == 1.0
  {
    if locs != [] {
      var n := |locs| - 1;
      UnlistedBlockKeepsAll(rates[..n], locs[..n], i, depth);
    }
  }

  /** When several locations designate the same block, the last of them sets
      its rate. */
  lemma {:induction false} LastWriteWins(rates: seq<real>, locs: seq<int>, k: nat, depth: nat)
    requires |rates| == |locs| && k < |locs| && Slot(locs[k], depth).Some?
    requires forall j :: k < j < |locs| ==> Slot(locs[j], depth) != Slot(locs[k], depth)
    ensures ScheduleSpec(rates, locs, depth)[Slot(locs[k], depth).value] == rates[k]
  {
    var n := |locs| - 1;
    var i := Slot(locs[k], depth).value;
    if k < n {
      LastWriteWins(rates[..n], locs[..n], k, depth);
    }
  }

  /** Every rate in the schedule is 1 or one of the given rates, so a block
      reduces only at a listed location. */
  lemma {:induction false} ScheduledRateIsListed(rates: seq<real>, locs: seq<int>, i: nat, depth: nat)
    requires |rates| == |locs| && i < depth
    ensures var r := ScheduleSpec(rates, locs, depth)[i];
      r == 1.0 || exists k :: 0 <= k < |locs| && Slot(locs[k], depth) == Some(i) && r == rates[k]
  {
    if locs != [] {
      var n := |locs| - 1;
      ScheduledRateIsListed(rates[..n], locs[..n], i, depth);
      var r := ScheduleSpec(rates, locs, depth)[i];
      if Slot(locs[n], depth) != Some(i) && r != 1.0 {
        var k :| 0 <= k < n && Slot(locs[..n][k], depth) == Some(i) && r == rates[..n][k];
        assert Slot(locs[k], depth) == Some(i) && r == rates[k];
      }
    }
  }

  /** The first rate outside (0, 1], scanning the blocks in order: the assert of
      the first Block constructed with such a rate is the one that fails. */
  function FirstBadRate(rates: seq<real>): (r: Option<real>)
    ensures r.None? <==> forall i :: 0 <= i < |rates| ==> RateOk(rates[i])
    ensures r.Some? ==> exists i :: 0 <= i < |rates| && rates[i] == r.value && !RateOk(r.value) &&
                          forall j :: 0 <= j < i ==> RateOk(rates[j])
  {
    if rates == [] then None
    else if !RateOk(rates[0]) then Some(rates[0])
    else
      var r := FirstBadRate(rates[1..]);
      if r.Some? then
        var i :| 0 <= i < |rates[1..]| && rates[1..][i] == r.value && !RateOk(r.value) &&
                 forall j :: 0 <= j < i ==> RateOk(rates[1..][j]);
        assert rates[i + 1] == r.value;
        r
      else
        r
  }

  /** The reduction-related part of EViT.__init__: the schedule, then one Block
      per depth (each asserting its keep rate), the recovery layers (the
      reduction locations, plus depth - 2 when recovering at the last stage),
      and the carrier check of the cross-layer cache. */
  method BuildConfig(depth: nat, args: Args) returns (r: Result<Config>)
    ensures r.Ok? ==> ValidConfig(r.value, args.numClr) && r.value.depth == depth
    ensures r.Ok? ==> (|Broadcast(args.keepRate, args.reductionLoc)| == |args.reductionLoc| &&
              r.value.rates == ScheduleSpec(Broadcast(args.keepRate, args.reductionLoc), args.reductionLoc, depth))
    ensures r.Ok? ==> (r.value.reductionLoc == args.reductionLoc &&
              r.value.recoveryLayers == args.reductionLoc + (if args.clcRecoverAtLast then [depth - 2] else []))
    ensures r.Ok? ==> (r.value.clc == args.clc && r.value.includeGap == args.clcIncludeGap &&
              r.value.poolCls == args.clcPoolCls && r.value.poolClr == args.clcPoolClr &&
              r.value.ifaHead == args.ifaHead)
    ensures r.Err? <==>
              || |Broadcast(args.keepRate, args.reductionLoc)| != |args.reductionLoc|
              || !LocsInRange(args.reductionLoc, depth)
              || FirstBadRate(ScheduleSpec(Broadcast(args.keepRate, args.reductionLoc), args.reductionLoc, depth)).Some?
              || (args.clc && args.numClr == 0 && !args.clcIncludeGap)
    ensures r.Err? && r.error == NoCarrierSource ==> args.clc && args.numClr == 0 && !args.clcIncludeGap
  {
    var sched := BuildSchedule(depth, args.keepRate, args.reductionLoc);
    if sched.Err? {
      return Err(sched.error);
    }
    var rates := sched.value;
    var bad := FirstBadRate(rates);
    if bad.Some? {
      return Err(RateOutOfRange(bad.value));
    }
    var recovery := args.reductionLoc + (if args.clcRecoverAtLast then [depth - 2] else []);
    if args.clc && args.numClr == 0 && !args.clcIncludeGap {
      return Err(NoCarrierSource);
    }
    return Ok(Config(depth, rates, args.reductionLoc, recovery, args.clc, args.clcIncludeGap,
                     args.clcPoolCls, args.clcPoolClr, args.ifaHead));
  }

  /** The default arguments on a twelve-block model: keep rate 0.9 at block 9
      only. */
  lemma DefaultSchedule()
    ensures var locs := [9];
      var s := ScheduleSpec(Broadcast([0.9], locs), locs, 12);
      s[9] == 0.9 && forall i :: 0 <= i < 12 && i != 9 ==> s[i] == 1.0
  {
    var locs := [9];
    var rates := Broadcast([0.9], locs);
    assert rates == [0.9];
    LastWriteWins(rates, locs, 0, 12);
    forall i | 0 <= i < 12 && i != 9 ensures ScheduleSpec(rates, locs, 12)[i] == 1.0 {
      UnlistedBlockKeepsAll(rates, locs, i, 12);
    }
  }
}
