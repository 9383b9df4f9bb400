/** Points accrual for RLP holders on Ethereum. A snapshot is kept per
    account under the account itself; its value is the account's RLP balance,
    scaled down by the token's decimals, times the price of the token the
    processor is bound to. Transfer reprocesses its non-null parties and the
    time interval every stored account. */
module HoldingRlpProcessor {
  import opened Common
  import Accrual
  import opened HoldingRlpConfig
  import Store

  const IntervalTrigger: string := "TimeInterval"

  datatype AccountSnapshot = AccountSnapshot(id: string, timestampMilli: int, balance: real, usdValue: real)

  /** What one handler invocation sees: the token address the processor is
      bound to, the block time, the token's `balanceOf`, the external USDC
      price and the boost multiplier by account. */
  datatype Chain = Chain(
    address: string, timestampMilli: int, balanceOf: string -> nat, usdcPrice: real,
    multiplier: string -> real)

  /** The "point_update" audit record; before-values default to 0. */
  datatype PointUpdate = PointUpdate(
    poolAddress: string, account: string, triggerEvent: string, points: real,
    snapshotTimestampMilli: int, snapshotBalance: real, snapshotUsdValue: real,
    newTimestampMilli: int, newBalance: real, newUsdValue: real)

  /** `calcPoints`: nothing for a snapshot from the future or from this very
      instant; otherwise value × 15 × elapsed days × the multiplier of the
      snapshot's account. */
  function CalcPoints(s: AccountSnapshot, chain: Chain): (r: real)
    ensures chain.timestampMilli <= s.timestampMilli ==> r == 0.0
    ensures r == Accrual.Points(s.usdValue, DailyPoints, MillisecondPerDay, s.timestampMilli,
                                chain.timestampMilli, chain.multiplier(s.id))
  {
    var now := chain.timestampMilli;
    if now < s.timestampMilli then 0.0
    else if now == s.timestampMilli then 0.0
    else
      var deltaDay := (now - s.timestampMilli) as real / MillisecondPerDay as real;
      s.usdValue * DailyPoints * deltaDay * chain.multiplier(s.id)
  }

  /** The price of the token the processor is bound to, or the error thrown. */
  function Price(chain: Chain): Result<real> {
    GetTokenPrice(chain.address, chain.usdcPrice)
  }

  /** `getAccountSnapshot` given the token's price: the balance scaled down
      by the decimals, valued at the price, stamped now under the account. */
  function AccountSnapshotAt(chain: Chain, decimals: nat, price: real, account: string): (s: AccountSnapshot)
    ensures s.id == account && s.timestampMilli == chain.timestampMilli
    ensures s.balance >= 0.0
    ensures s.balance * Pow10(decimals) as real == chain.balanceOf(account) as real
  {
    var balance := chain.balanceOf(account) as real / Pow10(decimals) as real;
    AccountSnapshot(account, chain.timestampMilli, balance, balance * price)
  }

  /** Bound to RLP (in any spelling of its address), the processor values a
      holding at its balance, and never throws. */
  lemma RlpHoldingValuedAtBalance(chain: Chain, decimals: nat, account: string)
    requires ToLower(chain.address) == Rlp
    ensures Price(chain) == Ok(1.0)
    ensures AccountSnapshotAt(chain, decimals, Price(chain).value, account).usdValue
            == AccountSnapshotAt(chain, decimals, Price(chain).value, account).balance
  {
    RlpPricedAtOne(chain.address, chain.usdcPrice);
  }

  /** The snapshot passed in, else the one stored under the account. */
  function Prior(store: map<string, AccountSnapshot>, account: string, passed: Option<AccountSnapshot>)
    : Option<AccountSnapshot>
  {
    if passed.Some? then passed
    else if account in store then Some(store[account])
    else None
  }

  function Accrued(prior: Option<AccountSnapshot>, chain: Chain): real {
    if prior.Some? then CalcPoints(prior.value, chain) else 0.0
  }

  function Record(chain: Chain, account: string, trigger: string, prior: Option<AccountSnapshot>, points: real,
                  s: AccountSnapshot): PointUpdate
  {
    match prior
    case None =>
      PointUpdate(chain.address, account, trigger, points, 0, 0.0, 0.0, s.timestampMilli, s.balance, s.usdValue)
    case Some(p) =>
      PointUpdate(chain.address, account, trigger, points, p.timestampMilli, p.balance, p.usdValue,
                  s.timestampMilli, s.balance, s.usdValue)
  }

  /** The audit record of processing `account` against the store `store0`. */
  function RecordFor(store0: map<string, AccountSnapshot>, account: string, passed: Option<AccountSnapshot>,
                     chain: Chain, decimals: nat, price: real, trigger: string): PointUpdate
  {
    var prior := Prior(store0, account, passed);
    Record(chain, account, trigger, prior, Accrued(prior, chain), AccountSnapshotAt(chain, decimals, price, account))
  }

  /** What `processAccount` records: the points accrued by the snapshot
      passed in, else by the stored one, else none; the before-side of that
      snapshot or zeros; the after-side of the new snapshot. */
  lemma RecordForSpec(store0: map<string, AccountSnapshot>, account: string, passed: Option<AccountSnapshot>,
                      chain: Chain, decimals: nat, price: real, trigger: string)
    ensures var e := RecordFor(store0, account, passed, chain, decimals, price, trigger);
            && e.poolAddress == chain.address && e.account == account && e.triggerEvent == trigger
            && e.newTimestampMilli == chain.timestampMilli
            && e.newUsdValue == AccountSnapshotAt(chain, decimals, price, account).usdValue
            && (passed.Some? ==>
                  e.points == CalcPoints(passed.value, chain) && e.snapshotUsdValue == passed.value.usdValue)
            && (passed.None? && account in store0 ==>
                  e.points == CalcPoints(store0[account], chain) && e.snapshotUsdValue == store0[account].usdValue)
            && (passed.None? && account !in store0 ==>
                  e.points == 0.0 && e.snapshotTimestampMilli == 0 && e.snapshotBalance == 0.0 && e.snapshotUsdValue == 0.0)
  {
  }

  /** The audit records of processing `accounts` in order against `store0`. */
  function Emitted(store0: map<string, AccountSnapshot>, accounts: seq<string>, passed: seq<Option<AccountSnapshot>>,
                   chain: Chain, decimals: nat, price: real, trigger: string): (es: seq<PointUpdate>)
    requires |passed| == |accounts|
    ensures |es| == |accounts|
    ensures forall i :: 0 <= i < |accounts| ==> es[i] == RecordFor(store0, accounts[i], passed[i], chain, decimals, price, trigger)
    decreases |accounts|
  {
    if accounts == [] then []
    else
      var n := |accounts| - 1;
      Emitted(store0, accounts[..n], passed[..n], chain, decimals, price, trigger)
        + [RecordFor(store0, accounts[n], passed[n], chain, decimals, price, trigger)]
  }

  /** The ids of a list of snapshots. */
  function Ids(snaps: seq<AccountSnapshot>): (ids: seq<string>)
    ensures |ids| == |snaps| && forall i :: 0 <= i < |snaps| ==> ids[i] == snaps[i].id
  {
    seq(|snaps|, i requires 0 <= i < |snaps| => snaps[i].id)
  }

  /** The stored snapshot of each listed id. */
  function Stored(store0: map<string, AccountSnapshot>, order: seq<string>): (ps: seq<Option<AccountSnapshot>>)
    requires forall id :: id in order ==> id in store0
    ensures |ps| == |order| && forall i :: 0 <= i < |order| ==> ps[i] == Some(store0[order[i]])
  {
    seq(|order|, i requires 0 <= i < |order| => Some(store0[order[i]]))
  }

  /** The new snapshots of a list of accounts agree wherever the accounts do. */
  lemma SnapshotsConsistent(accounts: seq<string>, snaps: seq<AccountSnapshot>, chain: Chain, decimals: nat, price: real)
    requires |snaps| == |accounts|
    requires forall i :: 0 <= i < |accounts| ==> snaps[i] == AccountSnapshotAt(chain, decimals, price, accounts[i])
    ensures Ids(snaps) == accounts && Store.Consistent(Ids(snaps), snaps)
  {
  }

  class HoldingPoints {
    /** The token's `decimals()`, read once at start-up. */
    const tokenDecimals: nat
    var store: map<string, AccountSnapshot>
    var events: seq<PointUpdate>

    /** Every snapshot is stored under its own id. */
    ghost predicate Valid()
      reads this`store
    {
      forall id :: id in store ==> store[id].id == id
    }

    constructor (tokenDecimals: nat)
      ensures Valid() && this.tokenDecimals == tokenDecimals && store == map[] && events == []
    {
      this.tokenDecimals := tokenDecimals;
      store := map[];
      events := [];
    }

    /** `processAccount` once the price is known: load the snapshot if none
        was passed, accrue its points, value the account and emit the audit
        record. */
    method ProcessAccount(account: string, passed: Option<AccountSnapshot>, price: real, trigger: string, chain: Chain)
      returns (s: AccountSnapshot)
      modifies this`events
      ensures s == AccountSnapshotAt(chain, tokenDecimals, price, account)
      ensures events == old(events) + [RecordFor(store, account, passed, chain, tokenDecimals, price, trigger)]
    {
      var prior := passed;
      if prior.None? && account in store {
        prior := Some(store[account]);
      }
      var points := if prior.Some? then CalcPoints(prior.value, chain) else 0.0;
      s := AccountSnapshotAt(chain, tokenDecimals, price, account);
      events := events + [Record(chain, account, trigger, prior, points, s)];
    }

    /** Process `accounts` one after the other against the store as it was
        before any of them (the sequential runtime's reading of `Promise.all`). */
    method ProcessEach(accounts: seq<string>, passed: seq<Option<AccountSnapshot>>, price: real, trigger: string,
                       chain: Chain)
      returns (snaps: seq<AccountSnapshot>)
      requires |passed| == |accounts|
      modifies this`events
      ensures |snaps| == |accounts|
      ensures forall i :: 0 <= i < |accounts| ==> snaps[i] == AccountSnapshotAt(chain, tokenDecimals, price, accounts[i])
      ensures events == old(events) + Emitted(store, accounts, passed, chain, tokenDecimals, price, trigger)
    {
      snaps := [];
      var i := 0;
      while i < |accounts|
        invariant 0 <= i <= |accounts| && |snaps| == i
        invariant forall k :: 0 <= k < i ==> snaps[k] == AccountSnapshotAt(chain, tokenDecimals, price, accounts[k])
        invariant events == old(events) + Emitted(store, accounts[..i], passed[..i], chain, tokenDecimals, price, trigger)
      {
        var s := ProcessAccount(accounts[i], passed[i], price, trigger, chain);
        assert accounts[..i + 1][..i] == accounts[..i] && passed[..i + 1][..i] == passed[..i];
        snaps := snaps + [s];
        i := i + 1;
      }
      assert accounts[..i] == accounts && passed[..i] == passed;
    }

    /** `ctx.store.upsert(newSnapshots)`: every new snapshot under its id
        (two snapshots with one id are the same snapshot). */
    method Upsert(snaps: seq<AccountSnapshot>)
      requires Valid()
      requires Store.Consistent(Ids(snaps), snaps)
      modifies this`store
      ensures Valid()
      ensures forall k :: k in store <==> k in old(store) || k in Ids(snaps)
      ensures forall k :: k in old(store) && k !in Ids(snaps) ==> store[k] == old(store)[k]
      ensures forall i :: 0 <= i < |snaps| ==> snaps[i].id in store && store[snaps[i].id] == snaps[i]
    {
      Store.UpsertedAll(store, Ids(snaps), snaps);
      store := Store.Upserted(store, Store.Zip(Ids(snaps), snaps));
    }

    /** Transfer: the non-null sender and receiver, each valued afresh; every
        other account keeps its snapshot. An unsupported token address
        throws before anything is emitted or stored. */
    method OnTransfer(from: string, to: string, chain: Chain) returns (thrown: Option<string>)
      requires Valid()
      modifies this`store, this`events
      ensures Valid()
      ensures thrown.Some? <==> NonNull([from, to]) != [] && Price(chain).Err?
      ensures thrown.Some? ==> thrown == Some(Price(chain).message) && store == old(store) && events == old(events)
      ensures thrown.None? ==> forall k :: k in store <==> k in old(store) || (k in [from, to] && !IsNullAddress(k))
      ensures thrown.None? ==>
                forall k :: k in old(store) && (IsNullAddress(k) || k !in [from, to]) ==> store[k] == old(store)[k]
      ensures thrown.None? ==> forall a :: a in [from, to] && !IsNullAddress(a) ==>
                Price(chain).Ok? && a in store && store[a] == AccountSnapshotAt(chain, tokenDecimals, Price(chain).value, a)
      ensures thrown.None? && Price(chain).Ok? ==>
                events == old(events) + Emitted(old(store), NonNull([from, to]), NoneEach(|NonNull([from, to])|),
                                                chain, tokenDecimals, Price(chain).value, "Transfer")
      ensures NonNull([from, to]) == [] ==> store == old(store) && events == old(events)
    {
      var parties := NonNull([from, to]);
      if parties == [] {
        return None;
      }
      var price := Price(chain);
      if price.Err? {
        return Some(price.message);
      }
      var snaps := ProcessEach(parties, NoneEach(|parties|), price.value, "Transfer", chain);
      SnapshotsConsistent(parties, snaps, chain, tokenDecimals, price.value);
      Upsert(snaps);
      thrown := None;
      forall a | a in [from, to] && !IsNullAddress(a)
        ensures a in store && store[a] == AccountSnapshotAt(chain, tokenDecimals, price.value, a)
      {
        var i :| 0 <= i < |parties| && parties[i] == a;
        assert snaps[i].id == a;
      }
    }

    /** The time interval: every stored snapshot (`order` lists their ids
        once each) is reprocessed with itself passed in and upserted, so the
        store keeps its ids and holds the new snapshot of each. */
    method OnTimeInterval(order: seq<string>, chain: Chain) returns (thrown: Option<string>)
      requires Valid()
      requires forall id :: id in order <==> id in store
      modifies this`store, this`events
      ensures Valid()
      ensures thrown.Some? <==> order != [] && Price(chain).Err?
      ensures thrown.Some? ==> store == old(store) && events == old(events)
      ensures forall k :: k in store <==> k in old(store)
      ensures thrown.None? && Price(chain).Ok? ==>
                forall k :: k in store ==> store[k] == AccountSnapshotAt(chain, tokenDecimals, Price(chain).value, k)
      ensures thrown.None? && Price(chain).Ok? ==>
                events == old(events) + Emitted(old(store), order, Stored(old(store), order),
                                                chain, tokenDecimals, Price(chain).value, IntervalTrigger)
      ensures order == [] ==> store == old(store) && events == old(events)
    {
      if order == [] {
        return None;
      }
      var price := Price(chain);
      if price.Err? {
        return Some(price.message);
      }
      var snaps := ProcessEach(order, Stored(store, order), price.value, IntervalTrigger, chain);
      SnapshotsConsistent(order, snaps, chain, tokenDecimals, price.value);
      Upsert(snaps);
      thrown := None;
      forall k | k in store
        ensures store[k] == AccountSnapshotAt(chain, tokenDecimals, price.value, k)
      {
        var i :| 0 <= i < |order| && order[i] == k;
        assert snaps[i].id == k;
      }
    }
  }
}
