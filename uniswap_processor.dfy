/** Points accrual for Uniswap v3 USR/USDC positions (NFTs of the position
    manager). Each position's last snapshot is kept in a store keyed by token
    id. Reprocessing a position credits the points earned since its last
    snapshot, values it afresh and emits a "point_update" audit record; a
    valuation that reverts with "Invalid token ID" means the position was
    burned, so its snapshot is deleted and a terminal record emitted.

    The chain is the `Block` parameter: per token id, what `positions()` and
    `ownerOf()` answer together with the token amounts the Uniswap SDK derives
    from the pool state, or the revert message; the USDC price; and the boost
    multiplier lookup. */
module UniswapProcessor {
  import opened Common
  import Accrual
  import opened UniswapConfig

  datatype PositionSnapshot = PositionSnapshot(
    id: string, poolAddress: string, tickLower: int, tickUpper: int, owner: string,
    timestampMilli: int, amount0: real, amount1: real, usdValue: real)

  /** What the chain says about one token id in the current block. */
  datatype Position = Position(
    token0: string, token1: string, fee: int, tickLower: int, tickUpper: int,
    owner: string, amount0: real, amount1: real)

  /** The block being processed. */
  datatype Block = Block(
    timestampMilli: int,
    positions: string -> Result<Position>,
    usdcPrice: real,
    multiplier: string -> real)

  /** The "point_update" audit record; absent before-values are "noone", 0 and "0". */
  datatype PointUpdate = PointUpdate(
    account: string, tokenId: string, poolAddress: string, points: real, triggerEvent: string,
    snapshotOwner: string, snapshotTimestampMilli: int,
    snapshotAmount0: real, snapshotAmount1: real, snapshotUsdValue: real,
    newOwner: string, newTimestampMilli: int,
    newAmount0: real, newAmount1: real, newUsdValue: real)

  /** What `processPosition` does with its caller: return a snapshot, return
      nothing, or throw. */
  datatype Outcome = Returned(snapshot: Option<PositionSnapshot>) | Thrown(message: string)

  const NoOwner: string := "noone"
  const BurnMarker: string := "Invalid token ID"
  /** The error raised by destructuring the absent prior snapshot after a burn. */
  const DestructureError: string := "Cannot destructure property 'owner' of 'positionSnapshot' as it is undefined."

  /** `calcPoints`: nothing for a snapshot from the future or from this very
      instant; otherwise value × 15 × elapsed days × the multiplier of the
      lower-cased owner. */
  function CalcPoints(s: PositionSnapshot, block: Block): (r: real)
    ensures block.timestampMilli <= s.timestampMilli ==> r == 0.0
    ensures r == Accrual.Points(s.usdValue, DailyPoints, MillisecondPerHour, s.timestampMilli,
                                block.timestampMilli, block.multiplier(ToLower(s.owner)))
  {
    var now := block.timestampMilli;
    if now < s.timestampMilli then 0.0
    else if now == s.timestampMilli then 0.0
    else
      var deltaDay := (now - s.timestampMilli) as real / MillisecondPerHour as real;
      s.usdValue * DailyPoints * deltaDay * block.multiplier(ToLower(s.owner))
  }

  /** Points credited by `processPosition`: none without a prior snapshot. */
  function Accrued(prior: Option<PositionSnapshot>, block: Block): (r: real)
    ensures prior.None? ==> r == 0.0
    ensures prior.Some? ==> r == CalcPoints(prior.value, block)
  {
    match prior
    case None => 0.0
    case Some(s) => CalcPoints(s, block)
  }

  /** amount0·price0 + amount1·price1. */
  function UsdValue(amount0: real, price0: real, amount1: real, price1: real): real {
    amount0 * price0 + amount1 * price1
  }

  /** `getLatestPositionSnapshot`: a fresh snapshot of the position stamped
      with the block time, valued at amount0·p(token0) + amount1·p(token1);
      a revert of the position calls or an unpriced token is an error. */
  function Valuation(poolInfo: PoolInfo, tokenId: string, block: Block): Result<PositionSnapshot>
  {
    match block.positions(tokenId)
    case Err(m) => Err(m)
    case Ok(p) =>
      match GetTokenPrice(poolInfo.token0, block.usdcPrice)
      case Err(m) => Err(m)
      case Ok(price0) =>
        match GetTokenPrice(poolInfo.token1, block.usdcPrice)
        case Err(m) => Err(m)
        case Ok(price1) =>
          Ok(PositionSnapshot(tokenId, poolInfo.address, p.tickLower, p.tickUpper, p.owner,
                              block.timestampMilli, p.amount0, p.amount1,
                              UsdValue(p.amount0, price0, p.amount1, price1)))
  }

  /** The valuation fails exactly when the position calls revert (with
      their message) or a token is unpriced; otherwise it is the position's
      owner and amounts at the block time, valued with the price table. */
  lemma ValuationSpec(poolInfo: PoolInfo, tokenId: string, block: Block)
    ensures var r := Valuation(poolInfo, tokenId, block);
            block.positions(tokenId).Err? ==> r == Err(block.positions(tokenId).message)
    ensures var r := Valuation(poolInfo, tokenId, block);
            r.Ok? <==> block.positions(tokenId).Ok?
                       && GetTokenPrice(poolInfo.token0, block.usdcPrice).Ok?
                       && GetTokenPrice(poolInfo.token1, block.usdcPrice).Ok?
    ensures var r := Valuation(poolInfo, tokenId, block);
            r.Ok? ==>
              var p := block.positions(tokenId).value;
              && r.value.id == tokenId
              && r.value.poolAddress == poolInfo.address
              && r.value.timestampMilli == block.timestampMilli
              && r.value.owner == p.owner
              && r.value.amount0 == p.amount0 && r.value.amount1 == p.amount1
              && r.value.usdValue == UsdValue(p.amount0, GetTokenPrice(poolInfo.token0, block.usdcPrice).value,
                                              p.amount1, GetTokenPrice(poolInfo.token1, block.usdcPrice).value)
  {
    match block.positions(tokenId)
    case Err(m) =>
    case Ok(p) =>
      var p0 := GetTokenPrice(poolInfo.token0, block.usdcPrice);
      var p1 := GetTokenPrice(poolInfo.token1, block.usdcPrice);
      if p0.Ok? && p1.Ok? {
        var usd := UsdValue(p.amount0, p0.value, p.amount1, p1.value);
        assert Valuation(poolInfo, tokenId, block)
            == Ok(PositionSnapshot(tokenId, poolInfo.address, p.tickLower, p.tickUpper, p.owner,
                                   block.timestampMilli, p.amount0, p.amount1, usd));
      }
  }

  /** A position of a configured pool: same tokens ignoring case, same fee. */
  predicate Matches(c: PoolInfo, p: Position) {
    SameAddress(p.token0, c.token0) && SameAddress(p.token1, c.token1) && p.fee == c.fee
  }

  /** `checkNFT`: the first configured pool the position belongs to; none if
      no pool matches or if `positions()` reverts. */
  function CheckNft(configs: seq<PoolInfo>, response: Result<Position>): (r: Option<PoolInfo>)
    ensures response.Err? ==> r.None?
    ensures response.Ok? ==> (r.None? <==> forall i :: 0 <= i < |configs| ==> !Matches(configs[i], response.value))
    ensures r.Some? ==> r.value in configs && Matches(r.value, response.value)
    ensures r.Some? ==> exists i :: 0 <= i < |configs| && configs[i] == r.value
                                    && forall j :: 0 <= j < i ==> !Matches(configs[j], response.value)
  {
    match response
    case Err(_) => None
    case Ok(p) => FindFirst(configs, (c: PoolInfo) => Matches(c, p))
  }

  /** The record of a successful valuation; the account is the prior owner
      if any, else the new owner. */
  function SuccessRecord(tokenId: string, poolAddress: string, points: real, trigger: string,
                         prior: Option<PositionSnapshot>, s: PositionSnapshot): (e: PointUpdate)
    ensures prior.None? ==> e.account == s.owner && e.snapshotOwner == NoOwner && e.snapshotTimestampMilli == 0
                            && e.snapshotAmount0 == 0.0 && e.snapshotAmount1 == 0.0 && e.snapshotUsdValue == 0.0
    ensures prior.Some? ==> e.account == prior.value.owner && e.snapshotOwner == prior.value.owner
                            && e.snapshotTimestampMilli == prior.value.timestampMilli
                            && e.snapshotUsdValue == prior.value.usdValue
    ensures e.newOwner == s.owner && e.newTimestampMilli == s.timestampMilli && e.newUsdValue == s.usdValue
    ensures e.points == points && e.tokenId == tokenId
  {
    match prior
    case None =>
      PointUpdate(s.owner, tokenId, poolAddress, points, trigger, NoOwner, 0, 0.0, 0.0, 0.0,
                  s.owner, s.timestampMilli, s.amount0, s.amount1, s.usdValue)
    case Some(p) =>
      PointUpdate(p.owner, tokenId, poolAddress, points, trigger, p.owner, p.timestampMilli,
                  p.amount0, p.amount1, p.usdValue,
                  s.owner, s.timestampMilli, s.amount0, s.amount1, s.usdValue)
  }

  /** The terminal record of a burned position: nobody owns it any more and
      it holds nothing from now on. */
  function BurnRecord(tokenId: string, poolAddress: string, points: real, trigger: string,
                      prior: PositionSnapshot, now: int): (e: PointUpdate)
    ensures e.account == prior.owner && e.snapshotOwner == prior.owner
    ensures e.newOwner == NoOwner && e.newTimestampMilli == now
    ensures e.newAmount0 == 0.0 && e.newAmount1 == 0.0 && e.newUsdValue == 0.0
    ensures e.points == points && e.tokenId == tokenId
  {
    PointUpdate(prior.owner, tokenId, poolAddress, points, trigger, prior.owner, prior.timestampMilli,
                prior.amount0, prior.amount1, prior.usdValue, NoOwner, now, 0.0, 0.0, 0.0)
  }

  predicate IsBurn(message: string) {
    Includes(message, BurnMarker)
  }

  /** The store after one position is processed and its result upserted:
      replaced by the fresh snapshot, deleted when burned (which throws if
      there was no prior snapshot), or left alone when the error is rethrown. */
  predicate StoreStep(store0: map<string, PositionSnapshot>, store1: map<string, PositionSnapshot>,
                      tokenId: string, v: Result<PositionSnapshot>, thrown: Option<string>)
  {
    && (v.Ok? ==> store1 == store0[tokenId := v.value] && thrown.None?)
    && (v.Err? && IsBurn(v.message) ==> store1 == store0 - {tokenId} && (thrown.None? <==> tokenId in store0))
    && (v.Err? && !IsBurn(v.message) ==> store1 == store0 && thrown == Some(v.message))
  }

  /** The audit records `processPosition` emits: the success record, the
      terminal record of a burned position with a prior snapshot, or nothing
      (a burn without a prior snapshot throws, any other error is rethrown). */
  function PositionEvents(tokenId: string, poolInfo: PoolInfo, prior: Option<PositionSnapshot>,
                          trigger: string, block: Block): (es: seq<PointUpdate>)
    ensures var v := Valuation(poolInfo, tokenId, block);
            |es| == (if v.Ok? || (IsBurn(v.message) && prior.Some?) then 1 else 0)
    ensures |es| == 1 ==> es[0].tokenId == tokenId && es[0].poolAddress == poolInfo.address
                          && es[0].points == Accrued(prior, block) && es[0].triggerEvent == trigger
    ensures |es| == 1 && Valuation(poolInfo, tokenId, block).Ok? ==>
              es[0].newUsdValue == Valuation(poolInfo, tokenId, block).value.usdValue
              && es[0].newOwner == Valuation(poolInfo, tokenId, block).value.owner
    ensures |es| == 1 && Valuation(poolInfo, tokenId, block).Err? ==> es[0].newOwner == NoOwner && es[0].newUsdValue == 0.0
  {
    match Valuation(poolInfo, tokenId, block)
    case Ok(s) => [SuccessRecord(tokenId, poolInfo.address, Accrued(prior, block), trigger, prior, s)]
    case Err(m) =>
      if IsBurn(m) && prior.Some? then [BurnRecord(tokenId, poolInfo.address, Accrued(prior, block), trigger, prior.value, block.timestampMilli)]
      else []
  }

  /** The stored snapshot of a token, if any. */
  function Stored(store: map<string, PositionSnapshot>, tokenId: string): (r: Option<PositionSnapshot>)
    ensures r.Some? <==> tokenId in store
    ensures r.Some? ==> r.value == store[tokenId]
  {
    if tokenId in store then Some(store[tokenId]) else None
  }

  /** The configured pools of the first `n` positions of `order`, looked
      up from their stored snapshots as `updateAll` does. */
  function Pools(configs: seq<PoolInfo>, order: seq<string>, store0: map<string, PositionSnapshot>, n: nat): (pools: seq<PoolInfo>)
    requires n <= |order|
    requires forall k :: 0 <= k < |order| ==> order[k] in store0 && store0[order[k]].poolAddress in Addresses(configs)
    ensures |pools| == n
  {
    if n == 0 then []
    else
      AddressResolves(configs, store0[order[n - 1]].poolAddress);
      Pools(configs, order, store0, n - 1) + [GetPoolInfo(configs, store0[order[n - 1]].poolAddress).value]
  }

  lemma PoolsLast(configs: seq<PoolInfo>, order: seq<string>, store0: map<string, PositionSnapshot>, n: nat)
    requires 0 < n <= |order|
    requires forall k :: 0 <= k < |order| ==> order[k] in store0 && store0[order[k]].poolAddress in Addresses(configs)
    ensures GetPoolInfo(configs, store0[order[n - 1]].poolAddress) == Some(Pools(configs, order, store0, n)[n - 1])
  {
    AddressResolves(configs, store0[order[n - 1]].poolAddress);
  }

  lemma {:induction false} PoolsAt(configs: seq<PoolInfo>, order: seq<string>, store0: map<string, PositionSnapshot>, n: nat, k: nat)
    requires n <= |order|
    requires forall k :: 0 <= k < |order| ==> order[k] in store0 && store0[order[k]].poolAddress in Addresses(configs)
    requires k < n
    ensures GetPoolInfo(configs, store0[order[k]].poolAddress) == Some(Pools(configs, order, store0, n)[k])
  {
    if k < n - 1 {
      PoolsAt(configs, order, store0, n - 1, k);
      assert Pools(configs, order, store0, n)[k] == Pools(configs, order, store0, n - 1)[k];
    } else {
      PoolsLast(configs, order, store0, n);
    }
  }

  /** The valuations `updateAll` makes for the first `n` listed positions,
      each in its pool. */
  function Plan(order: seq<string>, pools: seq<PoolInfo>, block: Block, n: nat): (vals: seq<Result<PositionSnapshot>>)
    requires n <= |order| && n <= |pools|
    ensures |vals| == n
  {
    if n == 0 then []
    else Plan(order, pools, block, n - 1) + [Valuation(pools[n - 1], order[n - 1], block)]
  }

  lemma {:induction false} PlanAt(order: seq<string>, pools: seq<PoolInfo>, block: Block, n: nat, k: nat)
    requires n <= |order| && n <= |pools|
    requires k < n
    ensures Plan(order, pools, block, n)[k] == Valuation(pools[k], order[k], block)
  {
    if k < n - 1 {
      PlanAt(order, pools, block, n - 1, k);
    }
  }

  /** The records `updateAll` emits for the first `n` positions of `order`,
      each processed in its pool with its stored snapshot as the prior one. */
  function Emitted(order: seq<string>, store0: map<string, PositionSnapshot>, pools: seq<PoolInfo>,
                   trigger: string, block: Block, n: nat): (evs: seq<PointUpdate>)
    requires n <= |order| && n <= |pools|
    requires forall k :: 0 <= k < |order| ==> order[k] in store0
    ensures |evs| <= n
  {
    if n == 0 then []
    else
      Emitted(order, store0, pools, trigger, block, n - 1)
      + PositionEvents(order[n - 1], pools[n - 1], Some(store0[order[n - 1]]), trigger, block)
  }

  /** The error `updateAll` passes on after the first `n` valuations of
      `vals`: the message of the first one that fails other than by a burn,
      or none when every one succeeds or is burned. */
  function FirstThrow(vals: seq<Result<PositionSnapshot>>, n: nat): (t: Option<string>)
    requires n <= |vals|
    ensures t.None? <==> forall k :: 0 <= k < n ==> vals[k].Ok? || IsBurn(vals[k].message)
    ensures t.Some? ==> exists k :: 0 <= k < n && vals[k] == Err(t.value) && !IsBurn(t.value)
                                    && forall j :: 0 <= j < k ==> vals[j].Ok? || IsBurn(vals[j].message)
  {
    if n == 0 then None
    else
      var t := FirstThrow(vals, n - 1);
      if t.Some? then t
      else if vals[n - 1].Err? && !IsBurn(vals[n - 1].message) then Some(vals[n - 1].message)
      else None
  }

  /** Nothing is passed on after the valuations of all listed positions
      exactly when none of their `outcomes` fails other than by a burn. */
  lemma FirstThrowIff(order: seq<string>, outcomes: map<string, Result<PositionSnapshot>>,
                      vals: seq<Result<PositionSnapshot>>)
    requires forall id :: id in order <==> id in outcomes
    requires |vals| == |order|
    requires forall k :: 0 <= k < |order| ==> vals[k] == outcomes[order[k]]
    ensures FirstThrow(vals, |order|).None? <==>
              forall id :: id in outcomes ==> outcomes[id].Ok? || IsBurn(outcomes[id].message)
  {
    if FirstThrow(vals, |order|).None? {
      forall id | id in outcomes
        ensures outcomes[id].Ok? || IsBurn(outcomes[id].message)
      {
        var k :| 0 <= k < |order| && order[k] == id;
      }
    }
  }

  /** Facts about the listed positions' valuations carry over to the
      `outcomes` of the positions they list. */
  lemma UpsertedByOutcome(order: seq<string>, outcomes: map<string, Result<PositionSnapshot>>,
                          vals: seq<Result<PositionSnapshot>>, store: map<string, PositionSnapshot>)
    requires forall id :: id in order <==> id in outcomes
    requires |vals| == |order|
    requires forall k :: 0 <= k < |order| ==> vals[k] == outcomes[order[k]]
    requires forall k :: 0 <= k < |order| ==> vals[k].Ok? ==> order[k] in store && store[order[k]] == vals[k].value
    requires forall k :: 0 <= k < |order| ==> vals[k].Err? ==> order[k] !in store && IsBurn(vals[k].message)
    ensures forall id :: id in outcomes ==>
              && (outcomes[id].Ok? ==> id in store && store[id] == outcomes[id].value)
              && (outcomes[id].Err? ==> id !in store && IsBurn(outcomes[id].message))
  {
    forall id | id in outcomes
      ensures && (outcomes[id].Ok? ==> id in store && store[id] == outcomes[id].value)
              && (outcomes[id].Err? ==> id !in store && IsBurn(outcomes[id].message))
    {
      var k :| 0 <= k < |order| && order[k] == id;
    }
  }

  /** Which listed positions are still stored carries over to the `outcomes`
      of the positions they list: exactly those not burned. */
  lemma KeptByOutcome(order: seq<string>, outcomes: map<string, Result<PositionSnapshot>>,
                      vals: seq<Result<PositionSnapshot>>, store: map<string, PositionSnapshot>)
    requires forall id :: id in order <==> id in outcomes
    requires |vals| == |order|
    requires forall k :: 0 <= k < |order| ==> vals[k] == outcomes[order[k]]
    requires forall k :: 0 <= k < |order| ==> vals[k].Err? && IsBurn(vals[k].message) ==> order[k] !in store
    requires forall k :: 0 <= k < |order| ==> !(vals[k].Err? && IsBurn(vals[k].message)) ==> order[k] in store
    ensures forall id :: id in outcomes ==> (id in store <==> !(outcomes[id].Err? && IsBurn(outcomes[id].message)))
  {
    forall id | id in outcomes
      ensures id in store <==> !(outcomes[id].Err? && IsBurn(outcomes[id].message))
    {
      var k :| 0 <= k < |order| && order[k] == id;
    }
  }

  /** How the results of the first `i` positions of `updateAll` follow their
      valuations `vals`: a valuation is returned, a burned position is
      dropped from `store` with no result, and the error kept is the first
      other failure. */
  ghost predicate Followed(order: seq<string>, vals: seq<Result<PositionSnapshot>>, addresses: set<string>, i: nat,
                           results: seq<Option<PositionSnapshot>>, firstThrown: Option<string>,
                           store: map<string, PositionSnapshot>)
  {
    && i <= |order| && i <= |vals| && |results| == i
    && (forall k :: 0 <= k < i ==> vals[k].Ok? ==>
          results[k] == Some(vals[k].value) && vals[k].value.id == order[k] && vals[k].value.poolAddress in addresses)
    && (forall k :: 0 <= k < i ==> vals[k].Err? && IsBurn(vals[k].message) ==>
          results[k].None? && order[k] !in store)
    && (forall k :: 0 <= k < i ==> !(vals[k].Err? && IsBurn(vals[k].message)) ==> order[k] in store)
    && firstThrown == FirstThrow(vals, i)
  }

  /** One more position processed, with outcome `out` and the store shrunk
      at most, keeps the results following their valuations. */
  lemma FollowedStep(order: seq<string>, vals: seq<Result<PositionSnapshot>>, addresses: set<string>, i: nat,
                     results: seq<Option<PositionSnapshot>>, firstThrown: Option<string>,
                     store: map<string, PositionSnapshot>, store': map<string, PositionSnapshot>, out: Outcome)
    requires i < |order| && i < |vals|
    requires Followed(order, vals, addresses, i, results, firstThrown, store)
    requires forall k :: 0 <= k < i ==> order[k] != order[i]
    requires order[i] in store
    requires vals[i].Ok? ==> out == Returned(Some(vals[i].value)) && vals[i].value.id == order[i]
                             && vals[i].value.poolAddress in addresses && store' == store
    requires vals[i].Err? && IsBurn(vals[i].message) ==> out == Returned(None) && store' == store - {order[i]}
    requires vals[i].Err? && !IsBurn(vals[i].message) ==> out == Thrown(vals[i].message) && store' == store
    ensures Followed(order, vals, addresses, i + 1, results + [if out.Returned? then out.snapshot else None],
                     if out.Thrown? && firstThrown.None? then Some(out.message) else firstThrown, store')
  {
    var results' := results + [if out.Returned? then out.snapshot else None];
    forall k | 0 <= k < i
      ensures results'[k] == results[k]
    {
    }
  }

  /** The position manager's event handlers and the periodic reprocessing. */
  class UniswapPoints {
    const configs: seq<PoolInfo>
    var store: map<string, PositionSnapshot>
    var events: seq<PointUpdate>

    /** Snapshots are stored under their own id and belong to a configured pool. */
    ghost predicate Valid()
      reads this
    {
      forall id :: id in store ==> store[id].id == id && store[id].poolAddress in Addresses(configs)
    }

    constructor (configs: seq<PoolInfo>)
      ensures Valid() && this.configs == configs && store == map[] && events == []
    {
      this.configs := configs;
      store := map[];
      events := [];
    }

    /** `processPosition`: credit the points since the prior snapshot, value
        the position afresh and emit the audit record. A burn deletes the
        snapshot, emits the terminal record and returns nothing; without a
        prior snapshot the terminal record cannot be built and the call
        throws after the delete. Any other error is rethrown untouched. */
    method ProcessPosition(tokenId: string, poolInfo: PoolInfo, prior: Option<PositionSnapshot>,
                           trigger: string, block: Block) returns (out: Outcome)
      requires Valid() && poolInfo in configs
      modifies this`store, this`events
      ensures Valid()
      ensures events == old(events) + PositionEvents(tokenId, poolInfo, prior, trigger, block)
      ensures var v := Valuation(poolInfo, tokenId, block);
              v.Ok? ==> out == Returned(Some(v.value)) && store == old(store)
                        && events == old(events) + [SuccessRecord(tokenId, poolInfo.address, Accrued(prior, block), trigger, prior, v.value)]
      ensures var v := Valuation(poolInfo, tokenId, block);
              v.Err? && IsBurn(v.message) ==>
                && store == old(store) - {tokenId}
                && (prior.Some? ==>
                      && out == Returned(None)
                      && events == old(events) + [BurnRecord(tokenId, poolInfo.address, Accrued(prior, block), trigger, prior.value, block.timestampMilli)])
                && (prior.None? ==> out == Thrown(DestructureError) && events == old(events))
      ensures var v := Valuation(poolInfo, tokenId, block);
              v.Err? && !IsBurn(v.message) ==> out == Thrown(v.message) && store == old(store) && events == old(events)
    {
      var points := Accrued(prior, block);
      match Valuation(poolInfo, tokenId, block)
      case Ok(s) =>
        events := events + [SuccessRecord(tokenId, poolInfo.address, points, trigger, prior, s)];
        out := Returned(Some(s));
      case Err(m) =>
        if Includes(m, BurnMarker) {
          store := store - {tokenId};
          if prior.None? {
            return Thrown(DestructureError);
          }
          events := events + [BurnRecord(tokenId, poolInfo.address, points, trigger, prior.value, block.timestampMilli)];
          out := Returned(None);
        } else {
          out := Thrown(m);
        }
    }

    /** Upsert the returned snapshot, if any, and pass a throw on. */
    method Settle(tokenId: string, poolInfo: PoolInfo, out: Outcome, ghost block: Block) returns (thrown: Option<string>)
      requires Valid() && poolInfo in configs
      requires out.Returned? && out.snapshot.Some? ==> Valuation(poolInfo, tokenId, block).Ok?
                                                        && out.snapshot.value == Valuation(poolInfo, tokenId, block).value
      modifies this`store
      ensures Valid()
      ensures out.Thrown? ==> thrown == Some(out.message) && store == old(store)
      ensures out.Returned? ==> thrown.None?
      ensures out.Returned? && out.snapshot.Some? ==> store == old(store)[tokenId := out.snapshot.value]
      ensures out.Returned? && out.snapshot.None? ==> store == old(store)
    {
      match out
      case Thrown(m) => thrown := Some(m);
      case Returned(r) =>
        thrown := None;
        if r.Some? {
          ValuationSpec(poolInfo, tokenId, block);
          store := store[tokenId := r.value];
        }
    }

    /** The pool an IncreaseLiquidity is attributed to: that of the stored
        snapshot, or for an untracked token the configured pool it matches. */
    ghost function IncreasePool(tokenId: string, block: Block): Option<PoolInfo>
      reads this
    {
      if tokenId in store then GetPoolInfo(configs, store[tokenId].poolAddress)
      else CheckNft(configs, block.positions(tokenId))
    }

    /** IncreaseLiquidity: tracked tokens and untracked tokens of a configured
        pool are processed and upserted; anything else is ignored. */
    method OnIncreaseLiquidity(tokenId: string, trigger: string, block: Block) returns (thrown: Option<string>)
      requires Valid()
      modifies this`store, this`events
      ensures Valid()
      ensures old(IncreasePool(tokenId, block)).None? ==> store == old(store) && events == old(events) && thrown.None?
      ensures old(IncreasePool(tokenId, block)).Some? ==>
                StoreStep(old(store), store, tokenId, Valuation(old(IncreasePool(tokenId, block)).value, tokenId, block), thrown)
      ensures old(IncreasePool(tokenId, block)).Some? ==>
                events == old(events) + PositionEvents(tokenId, old(IncreasePool(tokenId, block)).value,
                                                       Stored(old(store), tokenId), trigger, block)
    {
      var prior := if tokenId in store then Some(store[tokenId]) else None;
      var poolInfo := if prior.Some? then GetPoolInfo(configs, prior.value.poolAddress)
                      else CheckNft(configs, block.positions(tokenId));
      if poolInfo.None? {
        return None;
      }
      var out := ProcessPosition(tokenId, poolInfo.value, prior, trigger, block);
      thrown := Settle(tokenId, poolInfo.value, out, block);
    }

    /** DecreaseLiquidity: only tracked tokens are processed (a token burned
        in the same transaction has no snapshot and is skipped). */
    method OnDecreaseLiquidity(tokenId: string, trigger: string, block: Block) returns (thrown: Option<string>)
      requires Valid()
      modifies this`store, this`events
      ensures Valid()
      ensures tokenId !in old(store) ==> store == old(store) && events == old(events) && thrown.None?
      ensures tokenId in old(store) ==>
                StoreStep(old(store), store, tokenId,
                          Valuation(GetPoolInfo(configs, old(store)[tokenId].poolAddress).value, tokenId, block), thrown)
      ensures tokenId in old(store) ==>
                events == old(events) + PositionEvents(tokenId, GetPoolInfo(configs, old(store)[tokenId].poolAddress).value,
                                                       Some(old(store)[tokenId]), trigger, block)
    {
      if tokenId !in store {
        return None;
      }
      var prior := store[tokenId];
      AddressResolves(configs, prior.poolAddress);
      var poolInfo := GetPoolInfo(configs, prior.poolAddress).value;
      var out := ProcessPosition(tokenId, poolInfo, Some(prior), trigger, block);
      thrown := Settle(tokenId, poolInfo, out, block);
    }

    /** Transfer: mints and burns (a null party) and untracked tokens are
        ignored; otherwise the position is re-identified with `checkNFT` and
        processed. */
    method OnTransfer(from: string, to: string, tokenId: string, trigger: string, block: Block) returns (thrown: Option<string>)
      requires Valid()
      modifies this`store, this`events
      ensures Valid()
      ensures IsNullAddress(from) || IsNullAddress(to) || tokenId !in old(store)
              || CheckNft(configs, block.positions(tokenId)).None? ==>
                store == old(store) && events == old(events) && thrown.None?
      ensures !IsNullAddress(from) && !IsNullAddress(to) && tokenId in old(store)
              && CheckNft(configs, block.positions(tokenId)).Some? ==>
                StoreStep(old(store), store, tokenId,
                          Valuation(CheckNft(configs, block.positions(tokenId)).value, tokenId, block), thrown)
      ensures !IsNullAddress(from) && !IsNullAddress(to) && tokenId in old(store)
              && CheckNft(configs, block.positions(tokenId)).Some? ==>
                events == old(events) + PositionEvents(tokenId, CheckNft(configs, block.positions(tokenId)).value,
                                                       Some(old(store)[tokenId]), trigger, block)
    {
      if IsNullAddress(from) || IsNullAddress(to) {
        return None;
      }
      if tokenId !in store {
        return None;
      }
      var prior := store[tokenId];
      var poolInfo := CheckNft(configs, block.positions(tokenId));
      if poolInfo.None? {
        return None;
      }
      var out := ProcessPosition(tokenId, poolInfo.value, Some(prior), trigger, block);
      thrown := Settle(tokenId, poolInfo.value, out, block);
    }

    /** The valuation `updateAll` makes of a stored position. */
    ghost function StoredValuation(s: PositionSnapshot, block: Block): Result<PositionSnapshot>
      requires s.poolAddress in Addresses(configs)
    {
      AddressResolves(configs, s.poolAddress);
      Valuation(GetPoolInfo(configs, s.poolAddress).value, s.id, block)
    }

    /** What `updateAll` leaves of the stored snapshots `store0`, given the
        error `thrown` it passes on: nothing is passed on exactly when every
        stored position is valued or burned; if something is, exactly the
        burned positions are gone; if nothing is, every valued position holds
        its new snapshot and every other one was burned and is gone. */
    ghost predicate Settled(store0: map<string, PositionSnapshot>, store: map<string, PositionSnapshot>,
                            block: Block, thrown: Option<string>)
    {
      && (forall id :: id in store0 ==> store0[id].poolAddress in Addresses(configs))
      && (thrown.None? <==> forall id :: id in store0 ==>
            var v := StoredValuation(store0[id], block); v.Ok? || IsBurn(v.message))
      && (thrown.Some? ==> forall id :: id in store0 ==>
            var v := StoredValuation(store0[id], block); id in store <==> !(v.Err? && IsBurn(v.message)))
      && (thrown.None? ==> forall id :: id in store0 ==>
            var v := StoredValuation(store0[id], block);
            && (v.Ok? ==> id in store && store[id] == v.value)
            && (v.Err? ==> id !in store && IsBurn(v.message)))
    }

    /** `updateAll`: reprocess every stored position (listed once each, in
        `order`) and upsert only the defined results. Burned positions are
        deleted and never re-created; if some valuation fails otherwise, the
        error is passed on after the deletes and nothing is upserted. */
    method UpdateAll(order: seq<string>, trigger: string, block: Block) returns (thrown: Option<string>)
      requires Valid()
      requires forall id :: id in order <==> id in store
      requires forall i, j :: 0 <= i < j < |order| ==> order[i] != order[j]
      modifies this`store, this`events
      ensures Valid()
      ensures forall id :: id in store ==> id in old(store)
      ensures events == old(events) + Emitted(order, old(store), Pools(configs, order, old(store), |order|), trigger, block, |order|)
      ensures thrown == FirstThrow(Plan(order, Pools(configs, order, old(store), |order|), block, |order|), |order|)
      ensures thrown.Some? ==> forall id :: id in store ==> store[id] == old(store)[id]
      ensures Settled(old(store), store, block, thrown)
    {
      ghost var store0 := store;
      ghost var pools := Pools(configs, order, store0, |order|);
      ghost var vals := Plan(order, pools, block, |order|);
      var results, firstThrown := ProcessAll(order, trigger, block);
      assert Followed(order, vals, Addresses(configs), |order|, results, firstThrown, store);
      thrown := Commit(order, results, firstThrown, vals, store0, block);
    }

    /** The upsert half of `updateAll`: with an error kept, the deletes stay
        and nothing is upserted; otherwise every defined result is. */
    method Commit(order: seq<string>, results: seq<Option<PositionSnapshot>>, firstThrown: Option<string>,
                  ghost vals: seq<Result<PositionSnapshot>>, ghost store0: map<string, PositionSnapshot>, ghost block: Block)
      returns (thrown: Option<string>)
      requires Valid()
      requires forall id :: id in order <==> id in store0
      requires forall i, j :: 0 <= i < j < |order| ==> order[i] != order[j]
      requires forall id :: id in store0 ==> store0[id].id == id && store0[id].poolAddress in Addresses(configs)
      requires vals == Plan(order, Pools(configs, order, store0, |order|), block, |order|)
      requires Followed(order, vals, Addresses(configs), |order|, results, firstThrown, store)
      requires forall id :: id in store ==> id in store0 && store[id] == store0[id]
      modifies this`store
      ensures Valid()
      ensures thrown == firstThrown && thrown == FirstThrow(vals, |order|)
      ensures forall id :: id in store ==> id in store0
      ensures thrown.Some? ==> store == old(store) && forall id :: id in store ==> store[id] == store0[id]
      ensures Settled(store0, store, block, thrown)
    {
      if firstThrown.Some? {
        StoredOutcomes(order, store0, block, vals, store, firstThrown);
        return firstThrown;
      }
      UpsertDefined(order, results, vals, store0);
      StoredOutcomes(order, store0, block, vals, store, firstThrown);
      thrown := None;
    }

    /** What the kept error and the final store say about the valuations of
        the stored positions. */
    lemma StoredOutcomes(order: seq<string>, store0: map<string, PositionSnapshot>, block: Block,
                         vals: seq<Result<PositionSnapshot>>, store: map<string, PositionSnapshot>, thrown: Option<string>)
      requires forall id :: id in order <==> id in store0
      requires forall id :: id in store0 ==> store0[id].id == id && store0[id].poolAddress in Addresses(configs)
      requires vals == Plan(order, Pools(configs, order, store0, |order|), block, |order|)
      requires thrown == FirstThrow(vals, |order|)
      requires thrown.None? ==>
                 && (forall k :: 0 <= k < |order| ==> vals[k].Ok? ==> order[k] in store && store[order[k]] == vals[k].value)
                 && (forall k :: 0 <= k < |order| ==> vals[k].Err? ==> order[k] !in store && IsBurn(vals[k].message))
      requires thrown.Some? ==>
                 && (forall k :: 0 <= k < |order| ==> vals[k].Err? && IsBurn(vals[k].message) ==> order[k] !in store)
                 && (forall k :: 0 <= k < |order| ==> !(vals[k].Err? && IsBurn(vals[k].message)) ==> order[k] in store)
      ensures thrown.Some? ==> forall id :: id in store0 ==>
                var v := StoredValuation(store0[id], block); id in store <==> !(v.Err? && IsBurn(v.message))
      ensures thrown.None? <==> forall id :: id in store0 ==>
                var v := StoredValuation(store0[id], block); v.Ok? || IsBurn(v.message)
      ensures thrown.None? ==> forall id :: id in store0 ==>
                var v := StoredValuation(store0[id], block);
                && (v.Ok? ==> id in store && store[id] == v.value)
                && (v.Err? ==> id !in store && IsBurn(v.message))
    {
      PlanOutcomes(order, store0, block);
      var outcomes := map id | id in store0 :: StoredValuation(store0[id], block);
      if thrown.None? {
        UpsertedByOutcome(order, outcomes, vals, store);
      } else {
        KeptByOutcome(order, outcomes, vals, store);
      }
    }

    /** The planned valuations are those `updateAll` makes of the stored
        snapshots, so nothing is passed on exactly when no stored position
        fails other than by a burn. */
    lemma PlanOutcomes(order: seq<string>, store0: map<string, PositionSnapshot>, block: Block)
      requires forall id :: id in order <==> id in store0
      requires forall id :: id in store0 ==> store0[id].id == id && store0[id].poolAddress in Addresses(configs)
      ensures forall k :: 0 <= k < |order| ==>
                Plan(order, Pools(configs, order, store0, |order|), block, |order|)[k] == StoredValuation(store0[order[k]], block)
      ensures FirstThrow(Plan(order, Pools(configs, order, store0, |order|), block, |order|), |order|).None? <==>
                forall id :: id in store0 ==> var v := StoredValuation(store0[id], block); v.Ok? || IsBurn(v.message)
    {
      var vals := Plan(order, Pools(configs, order, store0, |order|), block, |order|);
      forall k | 0 <= k < |order|
        ensures vals[k] == StoredValuation(store0[order[k]], block)
      {
        PlanStored(order, store0, block, k);
      }
      var outcomes := map id | id in store0 :: StoredValuation(store0[id], block);
      FirstThrowIff(order, outcomes, vals);
    }

    /** The planned valuation of the `k`-th listed position is the one
        `updateAll` makes of its stored snapshot. */
    lemma PlanStored(order: seq<string>, store0: map<string, PositionSnapshot>, block: Block, k: nat)
      requires forall k :: 0 <= k < |order| ==> order[k] in store0 && store0[order[k]].poolAddress in Addresses(configs)
      requires k < |order| && store0[order[k]].id == order[k]
      ensures Plan(order, Pools(configs, order, store0, |order|), block, |order|)[k] == StoredValuation(store0[order[k]], block)
    {
      PoolsAt(configs, order, store0, |order|, k);
      PlanAt(order, Pools(configs, order, store0, |order|), block, |order|, k);
    }

    /** What `updateAll` has done after processing the first `i` positions of
        `order`, starting from `store0` and `events0`: every stored snapshot
        is the starting one, the unprocessed ones are all still there, the
        records of the processed ones are appended in order, and each
        processed result follows its planned valuation in `vals`. */
    ghost predicate Progress(order: seq<string>, store0: map<string, PositionSnapshot>, pools: seq<PoolInfo>,
                             vals: seq<Result<PositionSnapshot>>, events0: seq<PointUpdate>, trigger: string, block: Block,
                             i: nat, results: seq<Option<PositionSnapshot>>, firstThrown: Option<string>)
      reads this
    {
      && i <= |order| == |pools| == |vals|
      && |results| == i
      && Valid()
      && (forall k :: 0 <= k < |order| ==> order[k] in store0)
      && (forall id :: id in store ==> id in store0 && store[id] == store0[id])
      && (forall k :: i <= k < |order| ==> order[k] in store)
      && events == events0 + Emitted(order, store0, pools, trigger, block, i)
      && Followed(order, vals, Addresses(configs), i, results, firstThrown, store)
    }

    /** One stored position processed in its pool `poolInfo`, with its stored
        snapshot as the prior one. */
    method ProcessStored(id: string, trigger: string, block: Block, ghost poolInfo: PoolInfo) returns (out: Outcome)
      requires Valid() && id in store
      requires GetPoolInfo(configs, store[id].poolAddress) == Some(poolInfo)
      modifies this`store, this`events
      ensures Valid()
      ensures events == old(events) + PositionEvents(id, poolInfo, Some(old(store)[id]), trigger, block)
      ensures var v := Valuation(poolInfo, id, block);
              && (v.Ok? ==> out == Returned(Some(v.value)) && store == old(store)
                            && v.value.id == id && v.value.poolAddress in Addresses(configs))
              && (v.Err? && IsBurn(v.message) ==> out == Returned(None) && store == old(store) - {id})
              && (v.Err? && !IsBurn(v.message) ==> out == Thrown(v.message) && store == old(store))
    {
      var s := store[id];
      var pool := GetPoolInfo(configs, s.poolAddress).value;
      ValuationSpec(pool, id, block);
      out := ProcessPosition(id, pool, Some(s), trigger, block);
    }

    /** The `i`-th position of `updateAll`: its records follow those of the
        positions before it, and its result follows its planned valuation. */
    method ProcessAt(order: seq<string>, i: nat, trigger: string, block: Block,
                     ghost store0: map<string, PositionSnapshot>, ghost pools: seq<PoolInfo>,
                     ghost vals: seq<Result<PositionSnapshot>>, ghost events0: seq<PointUpdate>,
                     results: seq<Option<PositionSnapshot>>, firstThrown: Option<string>)
      returns (results': seq<Option<PositionSnapshot>>, firstThrown': Option<string>)
      requires i < |order|
      requires forall j, k :: 0 <= j < k < |order| ==> order[j] != order[k]
      requires forall k :: 0 <= k < |order| ==> order[k] in store0 && store0[order[k]].poolAddress in Addresses(configs)
      requires pools == Pools(configs, order, store0, |order|) && vals == Plan(order, pools, block, |order|)
      requires Progress(order, store0, pools, vals, events0, trigger, block, i, results, firstThrown)
      modifies this`store, this`events
      ensures Progress(order, store0, pools, vals, events0, trigger, block, i + 1, results', firstThrown')
    {
      var id := order[i];
      PoolsAt(configs, order, store0, |order|, i);
      PlanAt(order, pools, block, |order|, i);
      ghost var es := PositionEvents(id, pools[i], Some(store0[id]), trigger, block);
      assert Emitted(order, store0, pools, trigger, block, i + 1) == Emitted(order, store0, pools, trigger, block, i) + es;
      AppendAfter(events0, Emitted(order, store0, pools, trigger, block, i), es);
      var out := ProcessStored(id, trigger, block, pools[i]);
      firstThrown' := if out.Thrown? && firstThrown.None? then Some(out.message) else firstThrown;
      results' := results + [if out.Returned? then out.snapshot else None];
      FollowedStep(order, vals, Addresses(configs), i, results, firstThrown, old(store), store, out);
    }

    /** Before any position is processed, nothing has been emitted or kept. */
    lemma ProgressStart(order: seq<string>, pools: seq<PoolInfo>, vals: seq<Result<PositionSnapshot>>,
                        trigger: string, block: Block)
      requires Valid()
      requires forall k :: 0 <= k < |order| ==> order[k] in store
      requires |pools| == |order| == |vals|
      ensures Progress(order, store, pools, vals, events, trigger, block, 0, [], None)
    {
      assert events + Emitted(order, store, pools, trigger, block, 0) == events;
    }

    /** The reprocessing half of `updateAll`: every listed position is
        processed with its stored snapshot; the first error thrown is kept. */
    method ProcessAll(order: seq<string>, trigger: string, block: Block)
      returns (results: seq<Option<PositionSnapshot>>, firstThrown: Option<string>)
      requires Valid()
      requires forall k :: 0 <= k < |order| ==> order[k] in store
      requires forall i, j :: 0 <= i < j < |order| ==> order[i] != order[j]
      modifies this`store, this`events
      ensures Valid()
      ensures forall id :: id in store ==> id in old(store) && store[id] == old(store)[id]
      ensures events == old(events) + Emitted(order, old(store), Pools(configs, order, old(store), |order|), trigger, block, |order|)
      ensures Followed(order, Plan(order, Pools(configs, order, old(store), |order|), block, |order|),
                       Addresses(configs), |order|, results, firstThrown, store)
    {
      ghost var pools := Pools(configs, order, store, |order|);
      ghost var vals := Plan(order, pools, block, |order|);
      ghost var store0 := store;
      ghost var events0 := events;
      results := [];
      firstThrown := None;
      var i := 0;
      ProgressStart(order, pools, vals, trigger, block);
      while i < |order|
        invariant Progress(order, store0, pools, vals, events0, trigger, block, i, results, firstThrown)
      {
        results, firstThrown := ProcessAt(order, i, trigger, block, store0, pools, vals, events0, results, firstThrown);
        i := i + 1;
      }
    }

    /** `store.upsert(results.filter(s => s != undefined))`. */
    method UpsertDefined(order: seq<string>, results: seq<Option<PositionSnapshot>>,
                         ghost vals: seq<Result<PositionSnapshot>>, ghost store0: map<string, PositionSnapshot>)
      requires Valid()
      requires |order| == |vals|
      requires forall i, j :: 0 <= i < j < |order| ==> order[i] != order[j]
      requires forall k :: 0 <= k < |order| ==> order[k] in store0
      requires Followed(order, vals, Addresses(configs), |order|, results, None, store)
      requires forall id :: id in store ==> id in store0
      modifies this`store
      ensures Valid()
      ensures forall id :: id in store ==> id in store0
      ensures forall k :: 0 <= k < |order| ==> vals[k].Ok? ==> order[k] in store && store[order[k]] == vals[k].value
      ensures forall k :: 0 <= k < |order| ==> vals[k].Err? ==> order[k] !in store && IsBurn(vals[k].message)
    {
      var j := 0;
      while j < |order|
        invariant 0 <= j <= |order|
        invariant Valid()
        invariant forall id :: id in store ==> id in store0
        invariant forall k :: 0 <= k < j ==> vals[k].Ok? ==> order[k] in store && store[order[k]] == vals[k].value
        invariant forall k :: 0 <= k < |order| ==> vals[k].Err? ==> order[k] !in store && IsBurn(vals[k].message)
      {
        if results[j].Some? {
          UpsertOne(order[j], results[j].value);
        }
        j := j + 1;
      }
    }

    /** `store.upsert(s)` of one snapshot of a configured pool. */
    method UpsertOne(id: string, s: PositionSnapshot)
      requires Valid() && s.id == id && s.poolAddress in Addresses(configs)
      modifies this`store
      ensures Valid() && store == old(store)[id := s]
    {
      store := store[id := s];
    }
  }
}
