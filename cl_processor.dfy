/** Points accrual for Aerodrome Slipstream USR/RLP positions on Base. The
    lifecycle is that of the Uniswap deployment with three differences: there
    is a single pool, so `checkNFT` is a yes/no test on the position's tokens;
    a Transfer of a tracked position is processed without re-checking it; and
    any valuation error whose message merely contains "ID" counts as a burn.
    USR and RLP are both priced at 1, so a position is worth usr + rlp. */
module ClProcessor {
  import opened Common
  import Accrual
  import opened ClConfig

  datatype PositionSnapshot = PositionSnapshot(
    id: string, tickLower: int, tickUpper: int, owner: string,
    timestampMilli: int, usrBalance: real, rlpBalance: real, usdValue: real)

  /** What the chain says about one token id in the current block: the
      `positions()` fields, the owner and the token amounts the SDK derives. */
  datatype Position = Position(
    token0: string, token1: string, tickLower: int, tickUpper: int,
    owner: string, amount0: real, amount1: real)

  datatype Block = Block(
    timestampMilli: int,
    positions: string -> Result<Position>,
    multiplier: string -> real)

  /** The "point_update" audit record; absent before-values are "noone", 0 and "0". */
  datatype PointUpdate = PointUpdate(
    account: string, tokenId: string, points: real, triggerEvent: string,
    snapshotOwner: string, snapshotTimestampMilli: int,
    snapshotUsrBalance: real, snapshotRlpBalance: real, snapshotUsdValue: real,
    newOwner: string, newTimestampMilli: int,
    newUsrBalance: real, newRlpBalance: real, newUsdValue: real)

  datatype Outcome = Returned(snapshot: Option<PositionSnapshot>) | Thrown(message: string)

  const NoOwner: string := "noone"
  const BurnMarker: string := "ID"
  const DestructureError: string := "Cannot destructure property 'owner' of 'positionSnapshot' as it is undefined."

  /** `calcPoints`: nothing for a snapshot from the future or from this very
      instant; otherwise value × 30 × elapsed days × the multiplier of the
      lower-cased owner. */
  function CalcPoints(s: PositionSnapshot, block: Block): (r: real)
    ensures block.timestampMilli <= s.timestampMilli ==> r == 0.0
    ensures r == Accrual.Points(s.usdValue, DailyPoints, MillisecondPerHour, s.timestampMilli,
                                block.timestampMilli, block.multiplier(ToLower(s.owner)))
  {
    var now := block.timestampMilli;
    if now < s.timestampMilli then 0.0
    else if now == s.timestampMilli then 0.0
    else
      var deltaDay := (now - s.timestampMilli) as real / MillisecondPerHour as real;
      s.usdValue * DailyPoints * deltaDay * block.multiplier(ToLower(s.owner))
  }

  function Accrued(prior: Option<PositionSnapshot>, block: Block): (r: real)
    ensures prior.None? ==> r == 0.0
    ensures prior.Some? ==> r == CalcPoints(prior.value, block)
  {
    match prior
    case None => 0.0
    case Some(s) => CalcPoints(s, block)
  }

  /** usr·p(USR) + rlp·p(RLP). */
  function UsdValue(usr: real, usrPrice: real, rlp: real, rlpPrice: real): real {
    usr * usrPrice + rlp * rlpPrice
  }

  /** `getLatestPositionSnapshot`: USR is amount0, RLP amount1, both priced
      by the table, stamped with the block time. */
  function Valuation(tokenId: string, block: Block): Result<PositionSnapshot> {
    match block.positions(tokenId)
    case Err(m) => Err(m)
    case Ok(p) =>
      match GetTokenPrice(Usr)
      case Err(m) => Err(m)
      case Ok(usrPrice) =>
        match GetTokenPrice(Rlp)
        case Err(m) => Err(m)
        case Ok(rlpPrice) =>
          Ok(PositionSnapshot(tokenId, p.tickLower, p.tickUpper, p.owner, block.timestampMilli,
                              p.amount0, p.amount1, UsdValue(p.amount0, usrPrice, p.amount1, rlpPrice)))
  }

  /** The valuation fails exactly when the position calls revert, with their
      message; otherwise it is the owner and amounts at the block time, and
      since both tokens are priced at 1 the value is usr + rlp. */
  lemma ValuationSpec(tokenId: string, block: Block)
    ensures Valuation(tokenId, block).Ok? <==> block.positions(tokenId).Ok?
    ensures block.positions(tokenId).Err? ==> Valuation(tokenId, block) == Err(block.positions(tokenId).message)
    ensures Valuation(tokenId, block).Ok? ==>
              var p := block.positions(tokenId).value;
              var s := Valuation(tokenId, block).value;
              && s.id == tokenId && s.owner == p.owner && s.timestampMilli == block.timestampMilli
              && s.usrBalance == p.amount0 && s.rlpBalance == p.amount1
              && s.usdValue == p.amount0 + p.amount1
  {
    ConfiguredTokensPriced();
  }

  /** `checkNFT`: the position holds USR as token0 and RLP as token1
      (ignoring case); false if `positions()` reverts. */
  function CheckNft(response: Result<Position>): (b: bool)
    ensures response.Err? ==> !b
    ensures response.Ok? ==> (b <==> SameToken(response.value.token0, Usr) && SameToken(response.value.token1, Rlp))
  {
    match response
    case Err(_) => false
    case Ok(p) => SameToken(p.token0, Usr) && SameToken(p.token1, Rlp)
  }

  function SuccessRecord(tokenId: string, points: real, trigger: string,
                         prior: Option<PositionSnapshot>, s: PositionSnapshot): (e: PointUpdate)
    ensures prior.None? ==> e.account == s.owner && e.snapshotOwner == NoOwner && e.snapshotTimestampMilli == 0
                            && e.snapshotUsrBalance == 0.0 && e.snapshotRlpBalance == 0.0 && e.snapshotUsdValue == 0.0
    ensures prior.Some? ==> e.account == prior.value.owner && e.snapshotOwner == prior.value.owner
                            && e.snapshotTimestampMilli == prior.value.timestampMilli
                            && e.snapshotUsdValue == prior.value.usdValue
    ensures e.newOwner == s.owner && e.newTimestampMilli == s.timestampMilli && e.newUsdValue == s.usdValue
    ensures e.points == points && e.tokenId == tokenId
  {
    match prior
    case None =>
      PointUpdate(s.owner, tokenId, points, trigger, NoOwner, 0, 0.0, 0.0, 0.0,
                  s.owner, s.timestampMilli, s.usrBalance, s.rlpBalance, s.usdValue)
    case Some(p) =>
      PointUpdate(p.owner, tokenId, points, trigger, p.owner, p.timestampMilli,
                  p.usrBalance, p.rlpBalance, p.usdValue,
                  s.owner, s.timestampMilli, s.usrBalance, s.rlpBalance, s.usdValue)
  }

  function BurnRecord(tokenId: string, points: real, trigger: string, prior: PositionSnapshot, now: int): (e: PointUpdate)
    ensures e.account == prior.owner && e.snapshotOwner == prior.owner
    ensures e.newOwner == NoOwner && e.newTimestampMilli == now
    ensures e.newUsrBalance == 0.0 && e.newRlpBalance == 0.0 && e.newUsdValue == 0.0
    ensures e.points == points && e.tokenId == tokenId
  {
    PointUpdate(prior.owner, tokenId, points, trigger, prior.owner, prior.timestampMilli,
                prior.usrBalance, prior.rlpBalance, prior.usdValue, NoOwner, now, 0.0, 0.0, 0.0)
  }

  predicate IsBurn(message: string) {
    Includes(message, BurnMarker)
  }

  /** The burn test is looser than the Uniswap one: every message that
      contains "Invalid token ID" contains "ID", and "ID" alone (or any
      message mentioning an ID) passes here but not there. */
  lemma BurnTestLooserThanUniswap(message: string)
    ensures Includes(message, "Invalid token ID") ==> IsBurn(message)
    ensures IsBurn("ID") && !Includes("ID", "Invalid token ID")
  {
    if Includes(message, "Invalid token ID") {
      assert OccursAt("Invalid token ID", "ID", 14);
      IncludesTransitive(message, "Invalid token ID", "ID", 14);
    }
    assert OccursAt("ID", "ID", 0);
  }

  /** The store after one position is processed and its result upserted. */
  predicate StoreStep(store0: map<string, PositionSnapshot>, store1: map<string, PositionSnapshot>,
                      tokenId: string, v: Result<PositionSnapshot>, thrown: Option<string>)
  {
    && (v.Ok? ==> store1 == store0[tokenId := v.value] && thrown.None?)
    && (v.Err? && IsBurn(v.message) ==> store1 == store0 - {tokenId} && (thrown.None? <==> tokenId in store0))
    && (v.Err? && !IsBurn(v.message) ==> store1 == store0 && thrown == Some(v.message))
  }

  /** The audit records `processPosition` emits: the success record, the
      terminal record of a burned position with a prior snapshot, or nothing
      (a burn without a prior snapshot throws, any other error is rethrown). */
  function PositionEvents(tokenId: string, prior: Option<PositionSnapshot>, trigger: string, block: Block): (es: seq<PointUpdate>)
    ensures var v := Valuation(tokenId, block);
            |es| == (if v.Ok? || (IsBurn(v.message) && prior.Some?) then 1 else 0)
    ensures |es| == 1 ==> es[0].tokenId == tokenId && es[0].points == Accrued(prior, block) && es[0].triggerEvent == trigger
    ensures |es| == 1 && Valuation(tokenId, block).Ok? ==>
              es[0].newUsdValue == Valuation(tokenId, block).value.usdValue
              && es[0].newOwner == Valuation(tokenId, block).value.owner
    ensures |es| == 1 && Valuation(tokenId, block).Err? ==> es[0].newOwner == NoOwner && es[0].newUsdValue == 0.0
  {
    match Valuation(tokenId, block)
    case Ok(s) => [SuccessRecord(tokenId, Accrued(prior, block), trigger, prior, s)]
    case Err(m) =>
      if IsBurn(m) && prior.Some? then [BurnRecord(tokenId, Accrued(prior, block), trigger, prior.value, block.timestampMilli)]
      else []
  }

  /** The stored snapshot of a token, if any. */
  function Stored(store: map<string, PositionSnapshot>, tokenId: string): (r: Option<PositionSnapshot>)
    ensures r.Some? <==> tokenId in store
    ensures r.Some? ==> r.value == store[tokenId]
  {
    if tokenId in store then Some(store[tokenId]) else None
  }

  /** The records `updateAll` emits for the first `n` positions of `order`,
      each processed with its stored snapshot as the prior one. */
  function Emitted(order: seq<string>, store0: map<string, PositionSnapshot>, trigger: string, block: Block, n: nat): (evs: seq<PointUpdate>)
    requires n <= |order|
    requires forall k :: 0 <= k < |order| ==> order[k] in store0
    ensures |evs| <= n
  {
    if n == 0 then []
    else Emitted(order, store0, trigger, block, n - 1) + PositionEvents(order[n - 1], Some(store0[order[n - 1]]), trigger, block)
  }

  /** The error `updateAll` passes on after the first `n` positions of
      `order`: the message of the first valuation that fails other than by
      a burn, or none when every one succeeds or is burned. */
  function FirstThrow(order: seq<string>, block: Block, n: nat): (t: Option<string>)
    requires n <= |order|
    ensures t.None? <==> forall k :: 0 <= k < n ==> Valuation(order[k], block).Ok? || IsBurn(Valuation(order[k], block).message)
    ensures t.Some? ==> exists k :: 0 <= k < n && Valuation(order[k], block) == Err(t.value) && !IsBurn(t.value)
                                    && forall j :: 0 <= j < k ==> Valuation(order[j], block).Ok? || IsBurn(Valuation(order[j], block).message)
  {
    if n == 0 then None
    else
      var t := FirstThrow(order, block, n - 1);
      if t.Some? then t
      else
        var v := Valuation(order[n - 1], block);
        if v.Err? && !IsBurn(v.message) then Some(v.message) else None
  }

  /** Nothing is passed on after all listed positions exactly when no
      position of `keys`, which `order` lists, fails other than by a burn. */
  lemma FirstThrowIff(order: seq<string>, keys: set<string>, block: Block)
    requires forall id :: id in order <==> id in keys
    ensures FirstThrow(order, block, |order|).None? <==>
              forall id :: id in keys ==> Valuation(id, block).Ok? || IsBurn(Valuation(id, block).message)
  {
    if FirstThrow(order, block, |order|).None? {
      forall id | id in keys
        ensures Valuation(id, block).Ok? || IsBurn(Valuation(id, block).message)
      {
        var k :| 0 <= k < |order| && order[k] == id;
      }
    }
  }

  /** How the results of the first `i` positions of `updateAll` follow their
      valuations: a valuation is returned, a burned position is dropped from
      `store` with no result, and the error kept is the first other failure. */
  ghost predicate Followed(order: seq<string>, block: Block, i: nat, results: seq<Option<PositionSnapshot>>,
                           firstThrown: Option<string>, store: map<string, PositionSnapshot>)
  {
    && i <= |order| && |results| == i
    && (forall k :: 0 <= k < i ==> Valuation(order[k], block).Ok? ==>
          results[k] == Some(Valuation(order[k], block).value) && Valuation(order[k], block).value.id == order[k])
    && (forall k :: 0 <= k < i ==> Valuation(order[k], block).Err? && IsBurn(Valuation(order[k], block).message) ==>
          results[k].None? && order[k] !in store)
    && (forall k :: 0 <= k < i ==> !(Valuation(order[k], block).Err? && IsBurn(Valuation(order[k], block).message)) ==>
          order[k] in store)
    && firstThrown == FirstThrow(order, block, i)
  }

  /** One more position processed, with outcome `out` and the store shrunk
      at most, keeps the results following their valuations. */
  lemma FollowedStep(order: seq<string>, block: Block, i: nat, results: seq<Option<PositionSnapshot>>,
                     firstThrown: Option<string>, store: map<string, PositionSnapshot>,
                     store': map<string, PositionSnapshot>, out: Outcome)
    requires i < |order|
    requires Followed(order, block, i, results, firstThrown, store)
    requires forall k :: 0 <= k < i ==> order[k] != order[i]
    requires order[i] in store
    requires var v := Valuation(order[i], block);
             && (v.Ok? ==> out == Returned(Some(v.value)) && v.value.id == order[i] && store' == store)
             && (v.Err? && IsBurn(v.message) ==> out == Returned(None) && store' == store - {order[i]})
             && (v.Err? && !IsBurn(v.message) ==> out == Thrown(v.message) && store' == store)
    ensures Followed(order, block, i + 1, results + [if out.Returned? then out.snapshot else None],
                     if out.Thrown? && firstThrown.None? then Some(out.message) else firstThrown, store')
  {
    ConfiguredTokensPriced();
    var results' := results + [if out.Returned? then out.snapshot else None];
    forall k | 0 <= k < i
      ensures results'[k] == results[k]
    {
    }
    forall k | 0 <= k < i
      ensures order[k] in store' <==> order[k] in store
    {
      assert order[k] != order[i];
    }
    var v := Valuation(order[i], block);
    assert FirstThrow(order, block, i + 1) ==
             if firstThrown.Some? then firstThrown else if v.Err? && !IsBurn(v.message) then Some(v.message) else None;
  }

  class ClPoints {
    var store: map<string, PositionSnapshot>
    var events: seq<PointUpdate>

    ghost predicate Valid()
      reads this
    {
      forall id :: id in store ==> store[id].id == id
    }

    constructor ()
      ensures Valid() && store == map[] && events == []
    {
      store := map[];
      events := [];
    }

    /** `processPosition`, with the looser burn test. */
    method ProcessPosition(tokenId: string, prior: Option<PositionSnapshot>, trigger: string, block: Block)
      returns (out: Outcome)
      requires Valid()
      modifies this`store, this`events
      ensures Valid()
      ensures events == old(events) + PositionEvents(tokenId, prior, trigger, block)
      ensures var v := Valuation(tokenId, block);
              v.Ok? ==> out == Returned(Some(v.value)) && store == old(store)
                        && events == old(events) + [SuccessRecord(tokenId, Accrued(prior, block), trigger, prior, v.value)]
      ensures var v := Valuation(tokenId, block);
              v.Err? && IsBurn(v.message) ==>
                && store == old(store) - {tokenId}
                && (prior.Some? ==>
                      && out == Returned(None)
                      && events == old(events) + [BurnRecord(tokenId, Accrued(prior, block), trigger, prior.value, block.timestampMilli)])
                && (prior.None? ==> out == Thrown(DestructureError) && events == old(events))
      ensures var v := Valuation(tokenId, block);
              v.Err? && !IsBurn(v.message) ==> out == Thrown(v.message) && store == old(store) && events == old(events)
    {
      var points := Accrued(prior, block);
      match Valuation(tokenId, block)
      case Ok(s) =>
        events := events + [SuccessRecord(tokenId, points, trigger, prior, s)];
        out := Returned(Some(s));
      case Err(m) =>
        if Includes(m, BurnMarker) {
          store := store - {tokenId};
          if prior.None? {
            return Thrown(DestructureError);
          }
          events := events + [BurnRecord(tokenId, points, trigger, prior.value, block.timestampMilli)];
          out := Returned(None);
        } else {
          out := Thrown(m);
        }
    }

    /** Upsert the returned snapshot, if any, and pass a throw on. */
    method Settle(tokenId: string, out: Outcome, ghost block: Block) returns (thrown: Option<string>)
      requires Valid()
      requires out.Returned? && out.snapshot.Some? ==> Valuation(tokenId, block).Ok?
                                                        && out.snapshot.value == Valuation(tokenId, block).value
      modifies this`store
      ensures Valid()
      ensures out.Thrown? ==> thrown == Some(out.message) && store == old(store)
      ensures out.Returned? ==> thrown.None?
      ensures out.Returned? && out.snapshot.Some? ==> store == old(store)[tokenId := out.snapshot.value]
      ensures out.Returned? && out.snapshot.None? ==> store == old(store)
    {
      match out
      case Thrown(m) => thrown := Some(m);
      case Returned(r) =>
        thrown := None;
        if r.Some? {
          ValuationSpec(tokenId, block);
          store := store[tokenId := r.value];
        }
    }

    /** IncreaseLiquidity: an untracked token is processed only if it is a
        USR/RLP position. */
    method OnIncreaseLiquidity(tokenId: string, trigger: string, block: Block) returns (thrown: Option<string>)
      requires Valid()
      modifies this`store, this`events
      ensures Valid()
      ensures tokenId !in old(store) && !CheckNft(block.positions(tokenId)) ==>
                store == old(store) && events == old(events) && thrown.None?
      ensures tokenId in old(store) || CheckNft(block.positions(tokenId)) ==>
                StoreStep(old(store), store, tokenId, Valuation(tokenId, block), thrown)
      ensures tokenId in old(store) || CheckNft(block.positions(tokenId)) ==>
                events == old(events) + PositionEvents(tokenId, Stored(old(store), tokenId), trigger, block)
    {
      var prior := if tokenId in store then Some(store[tokenId]) else None;
      if prior.None? && !CheckNft(block.positions(tokenId)) {
        return None;
      }
      var out := ProcessPosition(tokenId, prior, trigger, block);
      thrown := Settle(tokenId, out, block);
    }

    /** DecreaseLiquidity: only tracked tokens are processed. */
    method OnDecreaseLiquidity(tokenId: string, trigger: string, block: Block) returns (thrown: Option<string>)
      requires Valid()
      modifies this`store, this`events
      ensures Valid()
      ensures tokenId !in old(store) ==> store == old(store) && events == old(events) && thrown.None?
      ensures tokenId in old(store) ==> StoreStep(old(store), store, tokenId, Valuation(tokenId, block), thrown)
      ensures tokenId in old(store) ==>
                events == old(events) + PositionEvents(tokenId, Some(old(store)[tokenId]), trigger, block)
    {
      if tokenId !in store {
        return None;
      }
      var out := ProcessPosition(tokenId, Some(store[tokenId]), trigger, block);
      thrown := Settle(tokenId, out, block);
    }

    /** Transfer: mints, burns and untracked tokens are ignored; a tracked
        position is processed without re-checking its tokens. */
    method OnTransfer(from: string, to: string, tokenId: string, trigger: string, block: Block) returns (thrown: Option<string>)
      requires Valid()
      modifies this`store, this`events
      ensures Valid()
      ensures IsNullAddress(from) || IsNullAddress(to) || tokenId !in old(store) ==>
                store == old(store) && events == old(events) && thrown.None?
      ensures !IsNullAddress(from) && !IsNullAddress(to) && tokenId in old(store) ==>
                StoreStep(old(store), store, tokenId, Valuation(tokenId, block), thrown)
      ensures !IsNullAddress(from) && !IsNullAddress(to) && tokenId in old(store) ==>
                events == old(events) + PositionEvents(tokenId, Some(old(store)[tokenId]), trigger, block)
    {
      if IsNullAddress(from) || IsNullAddress(to) {
        return None;
      }
      if tokenId !in store {
        return None;
      }
      var out := ProcessPosition(tokenId, Some(store[tokenId]), trigger, block);
      thrown := Settle(tokenId, out, block);
    }

    /** `updateAll`: reprocess every stored position (listed once each, in
        `order`) and upsert only the defined results; burned positions are
        deleted and never re-created, and on another error nothing is upserted. */
    method UpdateAll(order: seq<string>, trigger: string, block: Block) returns (thrown: Option<string>)
      requires Valid()
      requires forall id :: id in order <==> id in store
      requires forall i, j :: 0 <= i < j < |order| ==> order[i] != order[j]
      modifies this`store, this`events
      ensures Valid()
      ensures forall id :: id in store ==> id in old(store)
      ensures events == old(events) + Emitted(order, old(store), trigger, block, |order|)
      ensures thrown == FirstThrow(order, block, |order|)
      ensures thrown.None? <==> forall id :: id in old(store) ==>
                var v := Valuation(id, block); v.Ok? || IsBurn(v.message)
      ensures thrown.Some? ==> forall id :: id in store ==> store[id] == old(store)[id]
      ensures thrown.Some? ==> forall id :: id in old(store) ==>
                var v := Valuation(id, block); id in store <==> !(v.Err? && IsBurn(v.message))
      ensures thrown.None? ==> forall id :: id in old(store) ==>
                var v := Valuation(id, block);
                && (v.Ok? ==> id in store && store[id] == v.value)
                && (v.Err? ==> id !in store && IsBurn(v.message))
    {
      ghost var store0 := store;
      FirstThrowIff(order, store.Keys, block);
      var results, firstThrown := ProcessAll(order, trigger, block);
      if firstThrown.Some? {
        forall id | id in store0
          ensures var v := Valuation(id, block); id in store <==> !(v.Err? && IsBurn(v.message))
        {
          var k :| 0 <= k < |order| && order[k] == id;
        }
        return firstThrown;
      }
      UpsertDefined(order, results, block);
      forall id | id in store0
        ensures var v := Valuation(id, block);
                && (v.Ok? ==> id in store && store[id] == v.value)
                && (v.Err? ==> id !in store && IsBurn(v.message))
      {
        var k :| 0 <= k < |order| && order[k] == id;
      }
      thrown := None;
    }

    /** What `updateAll` has done after processing the first `i` positions of
        `order`, starting from `store0` and `events0`: every stored snapshot
        is the starting one, the unprocessed ones are all still there, the
        records of the processed ones are appended in order, a valuation is
        returned, a burned position is dropped with no result, and any other
        error leaves a thrown error behind. */
    ghost predicate Progress(order: seq<string>, store0: map<string, PositionSnapshot>, events0: seq<PointUpdate>,
                             trigger: string, block: Block, i: nat,
                             results: seq<Option<PositionSnapshot>>, firstThrown: Option<string>)
      reads this
    {
      && i <= |order| && |results| == i
      && Valid()
      && (forall k :: 0 <= k < |order| ==> order[k] in store0)
      && (forall id :: id in store ==> id in store0 && store[id] == store0[id])
      && (forall k :: i <= k < |order| ==> order[k] in store)
      && events == events0 + Emitted(order, store0, trigger, block, i)
      && Followed(order, block, i, results, firstThrown, store)
    }

    /** The `i`-th position of `updateAll`: its records follow those of the
        positions before it, and its result follows its valuation. */
    method ProcessAt(order: seq<string>, i: nat, trigger: string, block: Block,
                     ghost store0: map<string, PositionSnapshot>, ghost events0: seq<PointUpdate>,
                     results: seq<Option<PositionSnapshot>>, firstThrown: Option<string>)
      returns (results': seq<Option<PositionSnapshot>>, firstThrown': Option<string>)
      requires i < |order|
      requires forall j, k :: 0 <= j < k < |order| ==> order[j] != order[k]
      requires Progress(order, store0, events0, trigger, block, i, results, firstThrown)
      modifies this`store, this`events
      ensures Progress(order, store0, events0, trigger, block, i + 1, results', firstThrown')
    {
      var id := order[i];
      ValuationSpec(id, block);
      ghost var es := PositionEvents(id, Some(store0[id]), trigger, block);
      assert Emitted(order, store0, trigger, block, i + 1) == Emitted(order, store0, trigger, block, i) + es;
      AppendAfter(events0, Emitted(order, store0, trigger, block, i), es);
      var out := ProcessPosition(id, Some(store[id]), trigger, block);
      firstThrown' := if out.Thrown? && firstThrown.None? then Some(out.message) else firstThrown;
      results' := results + [if out.Returned? then out.snapshot else None];
      FollowedStep(order, block, i, results, firstThrown, old(store), store, out);
    }

    /** Before any position is processed, nothing has been emitted or kept. */
    lemma ProgressStart(order: seq<string>, trigger: string, block: Block)
      requires Valid()
      requires forall k :: 0 <= k < |order| ==> order[k] in store
      ensures Progress(order, store, events, trigger, block, 0, [], None)
    {
      assert events + Emitted(order, store, trigger, block, 0) == events;
    }

    /** The reprocessing half of `updateAll`; the first error thrown is kept. */
    method ProcessAll(order: seq<string>, trigger: string, block: Block)
      returns (results: seq<Option<PositionSnapshot>>, firstThrown: Option<string>)
      requires Valid()
      requires forall k :: 0 <= k < |order| ==> order[k] in store
      requires forall i, j :: 0 <= i < j < |order| ==> order[i] != order[j]
      modifies this`store, this`events
      ensures Progress(order, old(store), old(events), trigger, block, |order|, results, firstThrown)
    {
      ghost var store0 := store;
      ghost var events0 := events;
      results := [];
      firstThrown := None;
      var i := 0;
      ProgressStart(order, trigger, block);
      while i < |order|
        invariant Progress(order, store0, events0, trigger, block, i, results, firstThrown)
      {
        results, firstThrown := ProcessAt(order, i, trigger, block, store0, events0, results, firstThrown);
        i := i + 1;
      }
    }

    /** `store.upsert(results.filter(s => s != undefined))`. */
    method UpsertDefined(order: seq<string>, results: seq<Option<PositionSnapshot>>, ghost block: Block)
      requires Valid()
      requires |results| == |order|
      requires forall i, j :: 0 <= i < j < |order| ==> order[i] != order[j]
      requires forall k :: 0 <= k < |order| ==> Valuation(order[k], block).Ok? ==>
                 results[k] == Some(Valuation(order[k], block).value) && Valuation(order[k], block).value.id == order[k]
      requires forall k :: 0 <= k < |order| ==> Valuation(order[k], block).Err? ==>
                 results[k].None? && order[k] !in store
      modifies this`store
      ensures Valid()
      ensures forall id :: id in store ==> id in old(store) || id in order
      ensures forall id :: id in store && id !in order ==> store[id] == old(store)[id]
      ensures forall k :: 0 <= k < |order| ==> Valuation(order[k], block).Ok? ==>
                order[k] in store && store[order[k]] == Valuation(order[k], block).value
      ensures forall k :: 0 <= k < |order| ==> Valuation(order[k], block).Err? ==> order[k] !in store
    {
      var j := 0;
      while j < |order|
        invariant 0 <= j <= |order|
        invariant Valid()
        invariant forall id :: id in store ==> id in old(store) || id in order
        invariant forall id :: id in store && id !in order ==> store[id] == old(store)[id]
        invariant forall k :: 0 <= k < j ==> Valuation(order[k], block).Ok? ==>
                    order[k] in store && store[order[k]] == Valuation(order[k], block).value
        invariant forall k :: 0 <= k < |order| ==> Valuation(order[k], block).Err? ==> order[k] !in store
      {
        if results[j].Some? {
          store := store[order[j] := results[j].value];
        }
        j := j + 1;
      }
    }
  }
}
