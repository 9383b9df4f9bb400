/** Points accrual for Curve StableSwap-NG liquidity providers on Ethereum.
    A snapshot is kept per (pool, account) under the composite id
    `pool + "." + account`; an account's value is its pro-rata share of the
    pool's token balances, counting LP tokens staked in the pool's gauge once
    the gauge exists. There is no deletion path: every processed account gets
    a new snapshot. */
module CurveProcessor {
  import opened Common
  import Accrual
  import opened CurveConfig
  import Store

  datatype AccountSnapshot = AccountSnapshot(
    id: string, poolAddress: string, timestampMilli: int,
    amount0: real, amount1: real, usdValue: real)

  /** What one handler invocation sees: the pool it is bound to, the block,
      the pool's and gauges' `balanceOf`, the pool's `totalSupply`, the two
      token totals of the pool, the external USDC price and the boost
      multiplier by account. */
  datatype Chain = Chain(
    address: string, blockNumber: int, timestampMilli: int,
    lpBalance: string -> nat, gaugeBalance: string -> string -> nat, lpSupply: nat,
    token0Total: nat, token1Total: nat, usdcPrice: real,
    multiplier: string -> real)

  /** The "point_update" audit record; before-values default to 0. */
  datatype PointUpdate = PointUpdate(
    poolAddress: string, account: string, triggerEvent: string, points: real,
    snapshotTimestampMilli: int, snapshotAmount0: real, snapshotAmount1: real, snapshotUsdValue: real,
    newTimestampMilli: int, newAmount0: real, newAmount1: real, newUsdValue: real)

  const ConfigNotFound: string := "config not found"
  const PoolInfoMissing: string := "Cannot read properties of undefined (reading 'token0Decimals')"
  const IntervalTrigger: string := "TimeInterval"

  /** The composite snapshot id. */
  function Id(pool: string, account: string): (id: string)
    ensures '.' in id
  {
    var id := pool + "." + account;
    assert id[|pool|] == '.';
    id
  }

  /** Within one pool, distinct accounts have distinct ids. */
  lemma IdInjective(pool: string, a: string, b: string)
    requires Id(pool, a) == Id(pool, b)
    ensures a == b
  {
    assert a == Id(pool, a)[|pool| + 1..];
    assert b == Id(pool, b)[|pool| + 1..];
  }

  /** `split(".")[1]` of a composite id is the account, for hex pools and
      accounts; the interval handler therefore rewrites each snapshot under
      its own id, and the multiplier is looked up for the right account. */
  lemma CompositeIdRoundTrip(pool: string, account: string)
    requires '.' !in pool && '.' !in account
    ensures SecondField(Id(pool, account)) == Some(account)
    ensures Id(pool, SecondField(Id(pool, account)).value) == Id(pool, account)
  {
    SecondFieldOfComposite(pool, account);
  }

  /** `calcPoints`: nothing for a snapshot from the future or from this very
      instant; otherwise value × 15 × elapsed days × the multiplier of the
      account named in the id. An id without a dot would make the source
      fail on an undefined account, so it is excluded. */
  function CalcPoints(s: AccountSnapshot, chain: Chain): (r: real)
    requires '.' in s.id
    ensures chain.timestampMilli <= s.timestampMilli ==> r == 0.0
    ensures r == Accrual.Points(s.usdValue, DailyPoints, MillisecondPerDay, s.timestampMilli,
                                chain.timestampMilli, chain.multiplier(SecondField(s.id).value))
  {
    var now := chain.timestampMilli;
    if now < s.timestampMilli then 0.0
    else if now == s.timestampMilli then 0.0
    else
      var deltaDay := (now - s.timestampMilli) as real / MillisecondPerDay as real;
      s.usdValue * DailyPoints * deltaDay * chain.multiplier(SecondField(s.id).value)
  }

  /** The gauge is counted when one is configured and the block is strictly
      after the gauge's creation block. */
  predicate GaugeCounts(config: Config, chain: Chain) {
    && config.gauge.Some? && config.gauge.value != ""
    && config.gaugeStartBlock.Some? && chain.blockNumber > config.gaugeStartBlock.value
  }

  /** LP tokens held directly plus, when the gauge counts, those staked in it. */
  function LpBalance(config: Config, chain: Chain, account: string): (lp: nat)
    ensures !GaugeCounts(config, chain) ==> lp == chain.lpBalance(account)
    ensures GaugeCounts(config, chain) ==> lp == chain.lpBalance(account) + chain.gaugeBalance(config.gauge.value)(account)
  {
    var direct := chain.lpBalance(account);
    if GaugeCounts(config, chain) then direct + chain.gaugeBalance(config.gauge.value)(account) else direct
  }

  /** The account's fraction of the LP supply; 0 for an empty pool. */
  function Share(lp: nat, supply: nat): real {
    if supply > 0 then lp as real / supply as real else 0.0
  }

  lemma ShareBounds(lp: nat, supply: nat)
    ensures Share(lp, supply) >= 0.0
    ensures supply == 0 ==> Share(lp, supply) == 0.0
    ensures supply > 0 ==> Share(lp, supply) * supply as real == lp as real
    ensures lp <= supply ==> Share(lp, supply) <= 1.0
  {
  }

  /** `toFixed(0)`: round half up, which for the non-negative products here
      is the nearest integer. */
  function Round(x: real): int {
    (x + 0.5).Floor
  }

  lemma RoundNearest(x: real)
    ensures x - 0.5 < Round(x) as real <= x + 0.5
  {
  }

  /** A token amount: the pool total times the share, rounded, then scaled
      down by the token's decimals. */
  function Amount(total: nat, share: real, decimals: nat): real {
    Round(total as real * share) as real / Pow10(decimals) as real
  }

  /** Scaled back up, the amount is the rounded pro-rata part of the total,
      within half a base unit of the exact part. */
  lemma AmountIsRoundedShare(total: nat, share: real, decimals: nat)
    ensures Amount(total, share, decimals) * Pow10(decimals) as real == Round(total as real * share) as real
    ensures total as real * share - 0.5 < Amount(total, share, decimals) * Pow10(decimals) as real <= total as real * share + 0.5
  {
    RoundNearest(total as real * share);
  }

  function UsdValue(amount0: real, price0: real, amount1: real, price1: real): real {
    amount0 * price0 + amount1 * price1
  }

  /** The account-independent part of `getAccountSnapshot`: the pool's
      config, its pool info and the two token prices, or the error thrown. */
  datatype Pricing = Pricing(config: Config, info: PoolInfo, price0: real, price1: real)

  function PoolPricing(configs: seq<Config>, poolInfos: seq<PoolInfo>, chain: Chain): Result<Pricing> {
    match GetConfig(configs, chain.address)
    case None => Err(ConfigNotFound)
    case Some(config) =>
      match GetPoolInfo(poolInfos, chain.address)
      case None => Err(PoolInfoMissing)
      case Some(info) =>
        match GetTokenPrice(info.token0, chain.usdcPrice)
        case Err(m) => Err(m)
        case Ok(price0) =>
          match GetTokenPrice(info.token1, chain.usdcPrice)
          case Err(m) => Err(m)
          case Ok(price1) => Ok(Pricing(config, info, price0, price1))
  }

  /** The per-account part of `getAccountSnapshot`, given the pool's
      pricing: the pro-rata amounts of the two tokens and their value. */
  function Valued(pricing: Result<Pricing>, chain: Chain, account: string): (r: Result<AccountSnapshot>)
    ensures pricing.Err? ==> r == Err(pricing.message)
    ensures pricing.Ok? ==> r.Ok? && r.value.id == Id(chain.address, account)
                            && r.value.poolAddress == chain.address && r.value.timestampMilli == chain.timestampMilli
  {
    match pricing
    case Err(m) => Err(m)
    case Ok(p) =>
      var share := Share(LpBalance(p.config, chain, account), chain.lpSupply);
      var amount0 := Amount(chain.token0Total, share, p.info.token0Decimals);
      var amount1 := Amount(chain.token1Total, share, p.info.token1Decimals);
      Ok(AccountSnapshot(Id(chain.address, account), chain.address, chain.timestampMilli,
                         amount0, amount1, UsdValue(amount0, p.price0, amount1, p.price1)))
  }

  /** `getAccountSnapshot` for `account` in the pool the handler is bound to. */
  function AccountSnapshotAt(configs: seq<Config>, poolInfos: seq<PoolInfo>, chain: Chain, account: string)
    : Result<AccountSnapshot>
  {
    Valued(PoolPricing(configs, poolInfos, chain), chain, account)
  }

  /** An unconfigured pool throws "config not found"; otherwise the snapshot
      exists exactly when the pool info and both token prices do, and it is
      stamped now under the composite id, with the pro-rata amounts and
      value a0·p0 + a1·p1. */
  lemma AccountSnapshotSpec(configs: seq<Config>, poolInfos: seq<PoolInfo>, chain: Chain, account: string)
    ensures GetConfig(configs, chain.address).None? ==>
              AccountSnapshotAt(configs, poolInfos, chain, account) == Err(ConfigNotFound)
    ensures AccountSnapshotAt(configs, poolInfos, chain, account).Ok? <==>
              && GetConfig(configs, chain.address).Some?
              && GetPoolInfo(poolInfos, chain.address).Some?
              && GetTokenPrice(GetPoolInfo(poolInfos, chain.address).value.token0, chain.usdcPrice).Ok?
              && GetTokenPrice(GetPoolInfo(poolInfos, chain.address).value.token1, chain.usdcPrice).Ok?
    ensures AccountSnapshotAt(configs, poolInfos, chain, account).Ok? ==>
              var s := AccountSnapshotAt(configs, poolInfos, chain, account).value;
              var config := GetConfig(configs, chain.address).value;
              var info := GetPoolInfo(poolInfos, chain.address).value;
              var share := Share(LpBalance(config, chain, account), chain.lpSupply);
              && s.id == Id(chain.address, account) && s.poolAddress == chain.address
              && s.timestampMilli == chain.timestampMilli
              && s.amount0 == Amount(chain.token0Total, share, info.token0Decimals)
              && s.amount1 == Amount(chain.token1Total, share, info.token1Decimals)
              && s.usdValue == UsdValue(s.amount0, GetTokenPrice(info.token0, chain.usdcPrice).value,
                                        s.amount1, GetTokenPrice(info.token1, chain.usdcPrice).value)
  {
  }

  const GetBalancesMissing: string := "config.getBalances is not a function"

  /** `getAccountSnapshot` as written: the config records carry no
      `getBalances`, so for a configured pool the call that should fetch the
      two token totals throws a TypeError before any amount is computed. */
  function AccountSnapshotAsWritten(configs: seq<Config>, chain: Chain): (r: Result<AccountSnapshot>)
    ensures r.Err?
    ensures r.message == ConfigNotFound <==> GetConfig(configs, chain.address).None?
  {
    if GetConfig(configs, chain.address).None? then Err(ConfigNotFound) else Err(GetBalancesMissing)
  }

  /** Wherever the model (which reads the token totals from the pool) values
      an account, the code as written throws instead. */
  lemma GetBalancesMissingThrows(configs: seq<Config>, poolInfos: seq<PoolInfo>, chain: Chain, account: string)
    requires AccountSnapshotAt(configs, poolInfos, chain, account).Ok?
    ensures AccountSnapshotAsWritten(configs, chain) == Err(GetBalancesMissing)
  {
    AccountSnapshotSpec(configs, poolInfos, chain, account);
  }

  /** The audit record of one processed account. */
  function Record(chain: Chain, account: string, trigger: string, prior: Option<AccountSnapshot>,
                  points: real, s: AccountSnapshot): (e: PointUpdate)
    ensures prior.None? ==> e.snapshotTimestampMilli == 0 && e.snapshotAmount0 == 0.0
                            && e.snapshotAmount1 == 0.0 && e.snapshotUsdValue == 0.0
    ensures prior.Some? ==> e.snapshotTimestampMilli == prior.value.timestampMilli
                            && e.snapshotUsdValue == prior.value.usdValue
    ensures e.newTimestampMilli == s.timestampMilli && e.newUsdValue == s.usdValue && e.points == points
    ensures e.poolAddress == chain.address && e.account == account
  {
    match prior
    case None =>
      PointUpdate(chain.address, account, trigger, points, 0, 0.0, 0.0, 0.0,
                  s.timestampMilli, s.amount0, s.amount1, s.usdValue)
    case Some(p) =>
      PointUpdate(chain.address, account, trigger, points, p.timestampMilli, p.amount0, p.amount1, p.usdValue,
                  s.timestampMilli, s.amount0, s.amount1, s.usdValue)
  }

  /** The snapshot passed in, else the stored one under the composite id. */
  function Prior(store: map<string, AccountSnapshot>, chain: Chain, account: string,
                 passed: Option<AccountSnapshot>): (r: Option<AccountSnapshot>)
    ensures passed.Some? ==> r == passed
    ensures passed.None? ==> (r.Some? <==> Id(chain.address, account) in store)
    ensures passed.None? && r.Some? ==> r.value == store[Id(chain.address, account)]
  {
    if passed.Some? then passed
    else if Id(chain.address, account) in store then Some(store[Id(chain.address, account)])
    else None
  }

  function Accrued(prior: Option<AccountSnapshot>, chain: Chain): (r: real)
    requires prior.Some? ==> '.' in prior.value.id
    ensures prior.None? ==> r == 0.0
    ensures prior.Some? ==> r == CalcPoints(prior.value, chain)
  {
    if prior.Some? then CalcPoints(prior.value, chain) else 0.0
  }

  /** The store entries for a list of new snapshots. */
  function Entries(snaps: seq<AccountSnapshot>): (es: seq<(string, AccountSnapshot)>)
    ensures |es| == |snaps|
    ensures forall i :: 0 <= i < |snaps| ==> es[i] == (snaps[i].id, snaps[i])
  {
    seq(|snaps|, i requires 0 <= i < |snaps| => (snaps[i].id, snaps[i]))
  }

  /** The valuation of each account in turn. */
  function Valuations(pricing: Result<Pricing>, chain: Chain, accounts: seq<string>)
    : (vs: seq<Result<AccountSnapshot>>)
    ensures |vs| == |accounts|
    decreases |accounts|
  {
    if accounts == [] then []
    else
      var n := |accounts| - 1;
      Valuations(pricing, chain, accounts[..n]) + [Valued(pricing, chain, accounts[n])]
  }

  lemma ValuationsSnoc(pricing: Result<Pricing>, chain: Chain, accounts: seq<string>, i: int)
    requires 0 <= i < |accounts|
    ensures Valuations(pricing, chain, accounts[..i + 1])
            == Valuations(pricing, chain, accounts[..i]) + [Valued(pricing, chain, accounts[i])]
  {
    assert accounts[..i + 1][..i] == accounts[..i];
  }

  lemma {:induction false} ValuationsAt(pricing: Result<Pricing>, chain: Chain, accounts: seq<string>, k: int)
    requires 0 <= k < |accounts|
    ensures Valuations(pricing, chain, accounts)[k] == Valued(pricing, chain, accounts[k])
    decreases |accounts|
  {
    var n := |accounts| - 1;
    if k < n {
      ValuationsAt(pricing, chain, accounts[..n], k);
    }
  }

  /** Upserting under the ids of the listed accounts adds no key when every
      listed id is the composite id of its own account. */
  lemma IntervalKeys(keys0: set<string>, keys1: set<string>, order: seq<string>, accounts: seq<string>, address: string)
    requires forall k :: k in keys1 <==> k in keys0 || exists a :: a in accounts && k == Id(address, a)
    requires forall k :: 0 <= k < |order| ==> order[k] in keys0
    requires |accounts| == |order|
    requires forall k :: 0 <= k < |order| ==> SecondField(order[k]) == Some(accounts[k])
    ensures keys0 <= keys1
    ensures (forall k :: 0 <= k < |order| ==> Id(address, SecondField(order[k]).value) == order[k]) ==> keys1 == keys0
  {
  }

  /** Every listed account is valued exactly when each of them, by
      position, is. */
  lemma AllValued(configs: seq<Config>, poolInfos: seq<PoolInfo>, chain: Chain, accounts: seq<string>)
    ensures (forall i :: 0 <= i < |accounts| ==> Valued(PoolPricing(configs, poolInfos, chain), chain, accounts[i]).Ok?) <==>
            (forall a :: a in accounts ==> AccountSnapshotAt(configs, poolInfos, chain, a).Ok?)
  {
    var pricing := PoolPricing(configs, poolInfos, chain);
    if forall i :: 0 <= i < |accounts| ==> Valued(pricing, chain, accounts[i]).Ok? {
      forall a | a in accounts
        ensures AccountSnapshotAt(configs, poolInfos, chain, a).Ok?
      {
        var i :| 0 <= i < |accounts| && accounts[i] == a;
      }
    }
    if forall a :: a in accounts ==> AccountSnapshotAt(configs, poolInfos, chain, a).Ok? {
      forall i | 0 <= i < |accounts|
        ensures Valued(pricing, chain, accounts[i]).Ok?
      {
        assert accounts[i] in accounts;
      }
    }
  }

  /** The account named by each listed id, `split(".")[1]`. */
  function IntervalAccounts(order: seq<string>): (accounts: seq<string>)
    requires forall k :: 0 <= k < |order| ==> '.' in order[k]
    ensures |accounts| == |order|
    ensures forall k :: 0 <= k < |order| ==> SecondField(order[k]) == Some(accounts[k])
  {
    seq(|order|, k requires 0 <= k < |order| => SecondField(order[k]).value)
  }

  /** Upserting one account's snapshot is a single map update. */
  lemma UpsertedOne(store0: map<string, AccountSnapshot>, store1: map<string, AccountSnapshot>,
                    address: string, account: string, s: AccountSnapshot)
    requires forall k :: k in store1 <==> k in store0 || exists a :: a in [account] && k == Id(address, a)
    requires forall k :: k in store0 && (forall a :: a in [account] ==> k != Id(address, a)) ==> store1[k] == store0[k]
    requires forall a :: a in [account] ==> Id(address, a) in store1 && store1[Id(address, a)] == s
    ensures store1 == store0[Id(address, account) := s]
  {
    assert forall a :: a in [account] <==> a == account;
  }

  class CurvePoints {
    const configs: seq<Config>
    const poolInfos: seq<PoolInfo>
    var store: map<string, AccountSnapshot>
    var events: seq<PointUpdate>

    /** Every snapshot is stored under its own id, and ids are composite. */
    ghost predicate Valid()
      reads this`store
    {
      forall id :: id in store ==> store[id].id == id && '.' in id
    }

    constructor (configs: seq<Config>, poolInfos: seq<PoolInfo>)
      ensures Valid() && this.configs == configs && this.poolInfos == poolInfos
      ensures store == map[] && events == []
    {
      this.configs := configs;
      this.poolInfos := poolInfos;
      store := map[];
      events := [];
    }

    /** The audit record, if any, of processing `account` with `passed`
        against the store `store0`: none when the valuation throws. */
    function RecordFor(account: string, passed: Option<AccountSnapshot>, pricing: Result<Pricing>,
                       trigger: string, chain: Chain, store0: map<string, AccountSnapshot>): (es: seq<PointUpdate>)
      requires passed.Some? ==> '.' in passed.value.id
      requires forall id :: id in store0 ==> '.' in store0[id].id
      ensures |es| <= 1
      ensures es != [] <==> Valued(pricing, chain, account).Ok?
      ensures es != [] ==> es[0].account == account && es[0].triggerEvent == trigger
                           && es[0].points == Accrued(Prior(store0, chain, account, passed), chain)
    {
      var prior := Prior(store0, chain, account, passed);
      match Valued(pricing, chain, account)
      case Err(_) => []
      case Ok(s) => [Record(chain, account, trigger, prior, Accrued(prior, chain), s)]
    }

    /** The audit records emitted when `accounts` are processed in order with
        the given passed snapshots: one per account whose valuation succeeds. */
    function Emitted(accounts: seq<string>, passed: seq<Option<AccountSnapshot>>, pricing: Result<Pricing>,
                     trigger: string, chain: Chain, store0: map<string, AccountSnapshot>): (es: seq<PointUpdate>)
      requires |passed| == |accounts|
      requires forall i :: 0 <= i < |passed| && passed[i].Some? ==> '.' in passed[i].value.id
      requires forall id :: id in store0 ==> '.' in store0[id].id
      ensures |es| <= |accounts|
      decreases |accounts|
    {
      if accounts == [] then []
      else
        var n := |accounts| - 1;
        Emitted(accounts[..n], passed[..n], pricing, trigger, chain, store0)
          + RecordFor(accounts[n], passed[n], pricing, trigger, chain, store0)
    }

    lemma EmittedSnoc(accounts: seq<string>, passed: seq<Option<AccountSnapshot>>, i: int, pricing: Result<Pricing>,
                      trigger: string, chain: Chain, store0: map<string, AccountSnapshot>)
      requires 0 <= i < |accounts| == |passed|
      requires forall i :: 0 <= i < |passed| && passed[i].Some? ==> '.' in passed[i].value.id
      requires forall id :: id in store0 ==> '.' in store0[id].id
      ensures Emitted(accounts[..i + 1], passed[..i + 1], pricing, trigger, chain, store0)
              == Emitted(accounts[..i], passed[..i], pricing, trigger, chain, store0)
                 + RecordFor(accounts[i], passed[i], pricing, trigger, chain, store0)
    {
      assert accounts[..i + 1][..i] == accounts[..i] && passed[..i + 1][..i] == passed[..i];
    }

    /** `processAccount`: load the snapshot if none was passed, accrue its
        points, value the account now, and emit the audit record. */
    method ProcessAccount(account: string, passed: Option<AccountSnapshot>, pricing: Result<Pricing>,
                          trigger: string, chain: Chain)
      returns (r: Result<AccountSnapshot>)
      requires Valid()
      requires passed.Some? ==> '.' in passed.value.id
      modifies this`events
      ensures r == Valued(pricing, chain, account)
      ensures events == old(events) + RecordFor(account, passed, pricing, trigger, chain, store)
    {
      var prior := Prior(store, chain, account, passed);
      var points := Accrued(prior, chain);
      r := Valued(pricing, chain, account);
      if r.Ok? {
        events := events + [Record(chain, account, trigger, prior, points, r.value)];
      }
    }

    /** Process `accounts` one after the other (as the sequential runtime
        runs the `Promise.all`); the first failure is what the handler throws. */
    method ProcessEach(accounts: seq<string>, passed: seq<Option<AccountSnapshot>>, pricing: Result<Pricing>,
                       trigger: string, chain: Chain)
      returns (results: seq<Result<AccountSnapshot>>)
      requires Valid()
      requires |passed| == |accounts|
      requires forall i :: 0 <= i < |passed| && passed[i].Some? ==> '.' in passed[i].value.id
      modifies this`events
      ensures events == old(events) + Emitted(accounts, passed, pricing, trigger, chain, store)
      ensures results == Valuations(pricing, chain, accounts)
    {
      results := [];
      var i := 0;
      while i < |accounts|
        invariant 0 <= i <= |accounts|
        invariant Valid()
        invariant events == old(events) + Emitted(accounts[..i], passed[..i], pricing, trigger, chain, store)
        invariant results == Valuations(pricing, chain, accounts[..i])
      {
        var r := ProcessAccount(accounts[i], passed[i], pricing, trigger, chain);
        EmittedSnoc(accounts, passed, i, pricing, trigger, chain, store);
        AppendAfter(old(events), Emitted(accounts[..i], passed[..i], pricing, trigger, chain, store),
                    RecordFor(accounts[i], passed[i], pricing, trigger, chain, store));
        ValuationsSnoc(pricing, chain, accounts, i);
        results := results + [r];
        i := i + 1;
      }
      assert accounts[..i] == accounts && passed[..i] == passed;
    }

    /** The handlers' shared tail: process the accounts and upsert every
        result, or throw and upsert nothing. */
    method ProcessParties(accounts: seq<string>, passed: seq<Option<AccountSnapshot>>, pricing: Result<Pricing>,
                          trigger: string, chain: Chain)
      returns (thrown: Option<string>)
      requires Valid()
      requires |passed| == |accounts|
      requires forall i :: 0 <= i < |passed| && passed[i].Some? ==> '.' in passed[i].value.id
      modifies this`store, this`events
      ensures Valid()
      ensures thrown.Some? ==> store == old(store)
      ensures thrown.None? <==> forall i :: 0 <= i < |accounts| ==> Valued(pricing, chain, accounts[i]).Ok?
      ensures thrown.None? ==>
                && (forall k :: k in store <==> k in old(store) || exists a :: a in accounts && k == Id(chain.address, a))
                && (forall k :: k in old(store) && (forall a :: a in accounts ==> k != Id(chain.address, a)) ==> store[k] == old(store)[k])
                && (forall a :: a in accounts ==>
                      Id(chain.address, a) in store && store[Id(chain.address, a)] == Valued(pricing, chain, a).value)
      ensures events == old(events) + Emitted(accounts, passed, pricing, trigger, chain, old(store))
    {
      var results := ProcessEach(accounts, passed, pricing, trigger, chain);
      forall i | 0 <= i < |accounts|
        ensures results[i] == Valued(pricing, chain, accounts[i])
      {
        ValuationsAt(pricing, chain, accounts, i);
      }
      thrown := FirstError(results);
      if thrown.Some? {
        return;
      }
      var snaps := Values(results);
      UpsertFresh(chain.address, accounts, snaps);
    }

    /** `ctx.store.upsert(newSnapshots)`: each new snapshot sits under the
        composite id of its account (an account listed twice has the same
        snapshot both times). */
    method UpsertFresh(address: string, accounts: seq<string>, snaps: seq<AccountSnapshot>)
      requires Valid()
      requires |snaps| == |accounts|
      requires forall i :: 0 <= i < |accounts| ==> snaps[i].id == Id(address, accounts[i])
      requires forall i, j :: 0 <= i < |accounts| && 0 <= j < |accounts| && accounts[i] == accounts[j] ==> snaps[i] == snaps[j]
      modifies this`store
      ensures Valid()
      ensures forall k :: k in store <==> k in old(store) || exists a :: a in accounts && k == Id(address, a)
      ensures forall k :: k in old(store) && (forall a :: a in accounts ==> k != Id(address, a)) ==> store[k] == old(store)[k]
      ensures forall i :: 0 <= i < |accounts| ==> Id(address, accounts[i]) in store && store[Id(address, accounts[i])] == snaps[i]
    {
      var es := Entries(snaps);
      Store.UpsertedKeys(store, es);
      assert forall k :: k in Store.Keys(es) <==> exists a :: a in accounts && k == Id(address, a) by {
        forall k ensures k in Store.Keys(es) <==> exists a :: a in accounts && k == Id(address, a) {
          if exists a :: a in accounts && k == Id(address, a) {
            var a :| a in accounts && k == Id(address, a);
            var i :| 0 <= i < |accounts| && accounts[i] == a;
            assert es[i].0 == k;
          }
        }
      }
      forall k | k in store && (forall a :: a in accounts ==> k != Id(address, a))
        ensures k in Store.Upserted(store, es) && Store.Upserted(store, es)[k] == store[k]
      {
        Store.UpsertedUntouched(store, es, k);
      }
      forall i | 0 <= i < |accounts|
        ensures Id(address, accounts[i]) in Store.Upserted(store, es)
        ensures Store.Upserted(store, es)[Id(address, accounts[i])] == snaps[i]
      {
        forall j | 0 <= j < |es| && es[j].0 == es[i].0
          ensures es[j].1 == es[i].1
        {
          IdInjective(address, accounts[j], accounts[i]);
        }
        Store.UpsertedConsistent(store, es, i);
      }
      store := Store.Upserted(store, es);
    }

    /** AddLiquidity: the provider, unless null. */
    method OnAddLiquidity(provider: string, chain: Chain) returns (thrown: Option<string>)
      requires Valid()
      modifies this`store, this`events
      ensures Valid()
      ensures IsNullAddress(provider) ==> store == old(store) && events == old(events) && thrown.None?
      ensures !IsNullAddress(provider) ==> (thrown.None? <==> AccountSnapshotAt(configs, poolInfos, chain, provider).Ok?)
      ensures !IsNullAddress(provider) && thrown.None? ==>
                store == old(store)[Id(chain.address, provider) := AccountSnapshotAt(configs, poolInfos, chain, provider).value]
      ensures thrown.Some? ==> store == old(store)
      ensures !IsNullAddress(provider) ==>
                events == old(events) + RecordFor(provider, None, PoolPricing(configs, poolInfos, chain), "AddLiquidity", chain, old(store))
    {
      thrown := ProcessOne(provider, PoolPricing(configs, poolInfos, chain), "AddLiquidity", chain);
    }

    /** RemoveLiquidity: the provider, unless null. */
    method OnRemoveLiquidity(provider: string, chain: Chain) returns (thrown: Option<string>)
      requires Valid()
      modifies this`store, this`events
      ensures Valid()
      ensures IsNullAddress(provider) ==> store == old(store) && events == old(events) && thrown.None?
      ensures !IsNullAddress(provider) ==> (thrown.None? <==> AccountSnapshotAt(configs, poolInfos, chain, provider).Ok?)
      ensures !IsNullAddress(provider) && thrown.None? ==>
                store == old(store)[Id(chain.address, provider) := AccountSnapshotAt(configs, poolInfos, chain, provider).value]
      ensures thrown.Some? ==> store == old(store)
      ensures !IsNullAddress(provider) ==>
                events == old(events) + RecordFor(provider, None, PoolPricing(configs, poolInfos, chain), "RemoveLiquidity", chain, old(store))
    {
      thrown := ProcessOne(provider, PoolPricing(configs, poolInfos, chain), "RemoveLiquidity", chain);
    }

    /** Transfer: the non-null sender and receiver. */
    method OnTransfer(sender: string, receiver: string, chain: Chain) returns (thrown: Option<string>)
      requires Valid()
      modifies this`store, this`events
      ensures Valid()
      ensures thrown.Some? ==> store == old(store)
      ensures thrown.None? <==> forall a :: a in NonNull([sender, receiver]) ==> AccountSnapshotAt(configs, poolInfos, chain, a).Ok?
      ensures thrown.None? ==> forall k :: k in old(store) && (forall a :: a in NonNull([sender, receiver]) ==> k != Id(chain.address, a)) ==>
                k in store && store[k] == old(store)[k]
      ensures thrown.None? ==> forall a :: a in [sender, receiver] && !IsNullAddress(a) ==>
                AccountSnapshotAt(configs, poolInfos, chain, a).Ok? && Id(chain.address, a) in store
                && store[Id(chain.address, a)] == AccountSnapshotAt(configs, poolInfos, chain, a).value
      ensures thrown.None? ==> forall k :: k in store <==>
                (k in old(store) || exists a :: a in [sender, receiver] && !IsNullAddress(a) && k == Id(chain.address, a))
      ensures events == old(events) + Emitted(NonNull([sender, receiver]), NoneEach(|NonNull([sender, receiver])|),
                                              PoolPricing(configs, poolInfos, chain), "Transfer", chain, old(store))
    {
      var parties := NonNull([sender, receiver]);
      thrown := ProcessParties(parties, NoneEach(|parties|), PoolPricing(configs, poolInfos, chain), "Transfer", chain);
      AllValued(configs, poolInfos, chain, parties);
    }

    /** A single party, unless null: processed and upserted as one map update. */
    method ProcessOne(provider: string, pricing: Result<Pricing>, trigger: string, chain: Chain)
      returns (thrown: Option<string>)
      requires Valid()
      modifies this`store, this`events
      ensures Valid()
      ensures IsNullAddress(provider) ==> store == old(store) && events == old(events) && thrown.None?
      ensures !IsNullAddress(provider) ==> (thrown.None? <==> Valued(pricing, chain, provider).Ok?)
      ensures !IsNullAddress(provider) && thrown.None? ==>
                store == old(store)[Id(chain.address, provider) := Valued(pricing, chain, provider).value]
      ensures thrown.Some? ==> store == old(store)
      ensures !IsNullAddress(provider) ==> events == old(events) + RecordFor(provider, None, pricing, trigger, chain, old(store))
    {
      var parties := NonNull([provider]);
      assert IsNullAddress(provider) ==> parties == [];
      assert !IsNullAddress(provider) ==> parties == [provider];
      thrown := ProcessParties(parties, NoneEach(|parties|), pricing, trigger, chain);
      if !IsNullAddress(provider) {
        EmittedOne(provider, pricing, trigger, chain, old(store));
        if thrown.None? {
          UpsertedOne(old(store), store, chain.address, provider, Valued(pricing, chain, provider).value);
        }
      }
    }

    /** The records of a single account processed with nothing passed in. */
    lemma EmittedOne(account: string, pricing: Result<Pricing>, trigger: string, chain: Chain,
                     store0: map<string, AccountSnapshot>)
      requires forall id :: id in store0 ==> '.' in store0[id].id
      ensures Emitted([account], NoneEach(1), pricing, trigger, chain, store0)
              == RecordFor(account, None, pricing, trigger, chain, store0)
    {
      assert NoneEach<AccountSnapshot>(1) == [None];
      assert Emitted([account], [None], pricing, trigger, chain, store0)
             == Emitted([], [], pricing, trigger, chain, store0) + RecordFor(account, None, pricing, trigger, chain, store0);
    }

    /** The time interval: every snapshot of this pool (`order` lists their
        ids once each) is reprocessed with itself passed in, for the account
        `split(".")[1]` of its id, and all results are upserted. */
    method OnTimeInterval(order: seq<string>, chain: Chain) returns (thrown: Option<string>)
      requires Valid()
      requires forall id :: id in order <==> id in store && store[id].poolAddress == chain.address
      modifies this`store, this`events
      ensures Valid()
      ensures thrown.Some? ==> store == old(store)
      ensures thrown.None? <==> forall a :: a in IntervalAccounts(order) ==> AccountSnapshotAt(configs, poolInfos, chain, a).Ok?
      ensures thrown.None? ==> forall k :: k in old(store) && (forall a :: a in IntervalAccounts(order) ==> k != Id(chain.address, a)) ==>
                k in store && store[k] == old(store)[k]
      ensures thrown.None? ==> forall k :: 0 <= k < |order| ==>
                var account := SecondField(order[k]).value;
                AccountSnapshotAt(configs, poolInfos, chain, account).Ok? && Id(chain.address, account) in store
                && store[Id(chain.address, account)] == AccountSnapshotAt(configs, poolInfos, chain, account).value
      ensures thrown.None? ==> old(store).Keys <= store.Keys
      ensures thrown.None? && (forall k :: 0 <= k < |order| ==> Id(chain.address, SecondField(order[k]).value) == order[k]) ==>
                store.Keys == old(store).Keys
      ensures events == old(events) + Emitted(IntervalAccounts(order), old(StoredEach(order)),
                                              PoolPricing(configs, poolInfos, chain), IntervalTrigger, chain, old(store))
    {
      var accounts := IntervalAccounts(order);
      thrown := ProcessParties(accounts, StoredEach(order), PoolPricing(configs, poolInfos, chain), IntervalTrigger, chain);
      forall k | 0 <= k < |order|
        ensures accounts[k] in accounts
      {
      }
      if thrown.None? {
        IntervalKeys(old(store).Keys, store.Keys, order, accounts, chain.address);
      }
    }

    /** Each listed snapshot, passed in as it is stored. */
    function StoredEach(order: seq<string>): (ps: seq<Option<AccountSnapshot>>)
      requires Valid()
      requires forall id :: id in order ==> id in store
      reads this`store
      ensures |ps| == |order|
      ensures forall k :: 0 <= k < |order| ==> ps[k] == Some(store[order[k]]) && '.' in ps[k].value.id
    {
      var s := store;
      seq(|order|, k requires 0 <= k < |order| && order[k] in s => Some(s[order[k]]))
    }
  }
}
