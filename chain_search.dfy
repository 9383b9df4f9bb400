/** `getCreationBlock`, shared verbatim by the Uniswap and the Curve
    deployments: a lower-bound binary search over block numbers for the first
    block at which the contract has code (`getCode(...).length > 2`), and the
    pool start block taken as the minimum over the configured pools. The
    `getCode` RPC is the predicate `hasCode`. */
module ChainSearch {

  /** Deployed code, once present, stays present in later blocks. */
  ghost predicate Monotone(hasCode: nat -> bool) {
    forall i: nat, j: nat :: i <= j && hasCode(i) ==> hasCode(j)
  }

  /** Reference definition by linear scan: the first block in [from, latest)
      with code, or `latest` when there is none. */
  function FirstWithCode(hasCode: nat -> bool, from: nat, latest: nat): (r: nat)
    requires from <= latest
    ensures from <= r <= latest
    ensures r == latest || hasCode(r)
    ensures forall b: nat :: from <= b < r ==> !hasCode(b)
    decreases latest - from
  {
    if from == latest then latest
    else if hasCode(from) then from
    else FirstWithCode(hasCode, from + 1, latest)
  }

  /** Any block that is `latest` or has code, with no block with code before
      it, is the one the linear scan finds. */
  lemma FirstWithCodeUnique(hasCode: nat -> bool, latest: nat, l: nat)
    requires l <= latest
    requires l == latest || hasCode(l)
    requires forall b: nat :: b < l ==> !hasCode(b)
    ensures l == FirstWithCode(hasCode, 0, latest)
  {
  }

  /** `getCreationBlock`: with l = 0 and r = the latest block, probe the floor
      midpoint m; code at m moves r to m, otherwise l to m + 1. The answer is a
      block with code (or `latest`) whose predecessor has none; for a monotone
      predicate it is the first block with code, or `latest` if there is none. */
  method GetCreationBlock(hasCode: nat -> bool, latest: nat) returns (l: nat)
    ensures l <= latest
    ensures l == latest || hasCode(l)
    ensures l == 0 || !hasCode(l - 1)
    ensures Monotone(hasCode) ==> l == FirstWithCode(hasCode, 0, latest)
  {
    l := 0;
    var r: nat := latest;
    while l < r
      invariant l <= r <= latest
      invariant r == latest || hasCode(r)
      invariant l == 0 || !hasCode(l - 1)
      invariant Monotone(hasCode) ==> forall b: nat :: b < l ==> !hasCode(b)
      decreases r - l
    {
      var m := (l + r) / 2;
      if hasCode(m) {
        r := m;
      } else {
        l := m + 1;
      }
    }
    if Monotone(hasCode) {
      FirstWithCodeUnique(hasCode, latest, l);
    }
  }

  /** `Math.min(...)` over a non-empty list. */
  function Min(xs: seq<nat>): (r: nat)
    requires |xs| > 0
    ensures r in xs
    ensures forall i :: 0 <= i < |xs| ==> r <= xs[i]
  {
    if |xs| == 1 then xs[0]
    else var m := Min(xs[1..]); if xs[0] <= m then xs[0] else m
  }

  /** `POOL_START_BLOCK`: the least creation block over the configured pools;
      with monotone code predicates, the first block at which any pool exists. */
  method PoolStartBlock(pools: seq<string>, hasCode: string -> nat -> bool, latest: nat) returns (start: nat)
    requires |pools| > 0
    ensures start <= latest
    ensures (forall p :: p in pools ==> Monotone(hasCode(p))) ==>
              start == Min(seq(|pools|, i requires 0 <= i < |pools| => FirstWithCode(hasCode(pools[i]), 0, latest)))
  {
    ghost var spec := seq(|pools|, i requires 0 <= i < |pools| => FirstWithCode(hasCode(pools[i]), 0, latest));
    var blocks: seq<nat> := [];
    var i := 0;
    while i < |pools|
      invariant 0 <= i <= |pools|
      invariant |blocks| == i
      invariant forall k :: 0 <= k < i ==> blocks[k] <= latest
      invariant (forall p :: p in pools ==> Monotone(hasCode(p))) ==> blocks == spec[..i]
    {
      var b := GetCreationBlock(hasCode(pools[i]), latest);
      blocks := blocks + [b];
      i := i + 1;
    }
    assert spec[..i] == spec;
    start := Min(blocks);
  }
}
