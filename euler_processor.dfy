/** Points accrual for USR suppliers of the Euler vault on Ethereum. A
    snapshot is kept per account under the account itself; its value is the
    account's vault shares converted to assets and scaled down by the token's
    18 decimals. Deposit, Borrow, Liquidate and Repay each reprocess one
    account, Transfer its non-null parties, and the time interval every
    stored account. */
module EulerProcessor {
  import opened Common
  import Accrual
  import Store

  const DailyPoints: real := 30.0
  const MillisecondPerDay: int := 60 * 60 * 1000 * 24
  const TokenDecimals: nat := 18
  const IntervalTrigger: string := "TimeInterval"

  datatype AccountSnapshot = AccountSnapshot(id: string, timestampMilli: int, supplyBalance: real)

  /** What one handler invocation sees: the block time, the vault's
      `balanceOf` (shares) and `convertToAssets`, and the boost multiplier
      by account. */
  datatype Chain = Chain(
    timestampMilli: int, balanceOf: string -> nat, convertToAssets: nat -> nat,
    multiplier: string -> real)

  /** The "point_update" audit record; before-values default to 0. */
  datatype PointUpdate = PointUpdate(
    account: string, points: real, snapshotTimestampMilli: int, snapshotSupplyBalance: real,
    newTimestampMilli: int, newSupplyBalance: real, triggerEvent: string)

  /** `calcPoints`: nothing for a snapshot from the future or from this very
      instant; otherwise supply balance × 30 × elapsed days × the multiplier
      of the snapshot's account. */
  function CalcPoints(s: AccountSnapshot, chain: Chain): (r: real)
    ensures chain.timestampMilli <= s.timestampMilli ==> r == 0.0
    ensures r == Accrual.Points(s.supplyBalance, DailyPoints, MillisecondPerDay, s.timestampMilli,
                                chain.timestampMilli, chain.multiplier(s.id))
  {
    var now := chain.timestampMilli;
    if now < s.timestampMilli then 0.0
    else if now == s.timestampMilli then 0.0
    else
      var deltaDay := (now - s.timestampMilli) as real / MillisecondPerDay as real;
      s.supplyBalance * DailyPoints * deltaDay * chain.multiplier(s.id)
  }

  /** `getLatestSnapshot`: the account's shares converted to assets, scaled
      down by the token decimals, stamped now under the account's id. */
  function LatestSnapshot(chain: Chain, account: string): (s: AccountSnapshot)
    ensures s.id == account && s.timestampMilli == chain.timestampMilli
    ensures s.supplyBalance >= 0.0
    ensures s.supplyBalance * Pow10(TokenDecimals) as real == chain.convertToAssets(chain.balanceOf(account)) as real
  {
    var assets := chain.convertToAssets(chain.balanceOf(account));
    AccountSnapshot(account, chain.timestampMilli, assets as real / Pow10(TokenDecimals) as real)
  }

  /** The snapshot passed in, else the one stored under the account. */
  function Prior(store: map<string, AccountSnapshot>, account: string, passed: Option<AccountSnapshot>)
    : Option<AccountSnapshot>
  {
    if passed.Some? then passed
    else if account in store then Some(store[account])
    else None
  }

  function Accrued(prior: Option<AccountSnapshot>, chain: Chain): real {
    if prior.Some? then CalcPoints(prior.value, chain) else 0.0
  }

  function Record(account: string, trigger: string, prior: Option<AccountSnapshot>, points: real,
                  s: AccountSnapshot): PointUpdate
  {
    match prior
    case None => PointUpdate(account, points, 0, 0.0, s.timestampMilli, s.supplyBalance, trigger)
    case Some(p) => PointUpdate(account, points, p.timestampMilli, p.supplyBalance,
                                s.timestampMilli, s.supplyBalance, trigger)
  }

  /** The audit record of processing `account` against the store `store0`. */
  function RecordFor(store0: map<string, AccountSnapshot>, account: string, passed: Option<AccountSnapshot>,
                     trigger: string, chain: Chain): PointUpdate
  {
    var prior := Prior(store0, account, passed);
    Record(account, trigger, prior, Accrued(prior, chain), LatestSnapshot(chain, account))
  }

  /** What `processAccount` records: the points accrued by the snapshot
      passed in, else by the stored one, else none; the before-side of that
      snapshot or zeros; the after-side of the latest snapshot. */
  lemma RecordForSpec(store0: map<string, AccountSnapshot>, account: string, passed: Option<AccountSnapshot>,
                      trigger: string, chain: Chain)
    ensures var e := RecordFor(store0, account, passed, trigger, chain);
            && e.account == account && e.triggerEvent == trigger
            && e.newTimestampMilli == chain.timestampMilli
            && e.newSupplyBalance == LatestSnapshot(chain, account).supplyBalance
            && (passed.Some? ==>
                  e.points == CalcPoints(passed.value, chain) && e.snapshotTimestampMilli == passed.value.timestampMilli)
            && (passed.None? && account in store0 ==>
                  e.points == CalcPoints(store0[account], chain) && e.snapshotSupplyBalance == store0[account].supplyBalance)
            && (passed.None? && account !in store0 ==>
                  e.points == 0.0 && e.snapshotTimestampMilli == 0 && e.snapshotSupplyBalance == 0.0)
  {
  }

  /** The audit records of processing `accounts` in order against `store0`. */
  function Emitted(store0: map<string, AccountSnapshot>, accounts: seq<string>, passed: seq<Option<AccountSnapshot>>,
                   trigger: string, chain: Chain): (es: seq<PointUpdate>)
    requires |passed| == |accounts|
    ensures |es| == |accounts|
    ensures forall i :: 0 <= i < |accounts| ==> es[i] == RecordFor(store0, accounts[i], passed[i], trigger, chain)
    decreases |accounts|
  {
    if accounts == [] then []
    else
      var n := |accounts| - 1;
      Emitted(store0, accounts[..n], passed[..n], trigger, chain) + [RecordFor(store0, accounts[n], passed[n], trigger, chain)]
  }

  /** The ids of a list of snapshots. */
  function Ids(snaps: seq<AccountSnapshot>): (ids: seq<string>)
    ensures |ids| == |snaps| && forall i :: 0 <= i < |snaps| ==> ids[i] == snaps[i].id
  {
    seq(|snaps|, i requires 0 <= i < |snaps| => snaps[i].id)
  }

  /** The stored snapshot of each listed id. */
  function Stored(store0: map<string, AccountSnapshot>, order: seq<string>): (ps: seq<Option<AccountSnapshot>>)
    requires forall id :: id in order ==> id in store0
    ensures |ps| == |order| && forall i :: 0 <= i < |order| ==> ps[i] == Some(store0[order[i]])
  {
    seq(|order|, i requires 0 <= i < |order| => Some(store0[order[i]]))
  }

  /** On the time interval every stored snapshot is passed in, so each
      account accrues exactly the points of its own stored snapshot. */
  lemma IntervalAccruesStored(store0: map<string, AccountSnapshot>, order: seq<string>, chain: Chain, i: int)
    requires forall id :: id in order ==> id in store0
    requires 0 <= i < |order|
    ensures Emitted(store0, order, Stored(store0, order), IntervalTrigger, chain)[i].points
            == CalcPoints(store0[order[i]], chain)
  {
    RecordForSpec(store0, order[i], Some(store0[order[i]]), IntervalTrigger, chain);
  }

  /** The latest snapshots of a list of accounts agree wherever the
      accounts do. */
  lemma LatestConsistent(accounts: seq<string>, snaps: seq<AccountSnapshot>, chain: Chain)
    requires |snaps| == |accounts| && forall i :: 0 <= i < |accounts| ==> snaps[i] == LatestSnapshot(chain, accounts[i])
    ensures Ids(snaps) == accounts && Store.Consistent(Ids(snaps), snaps)
  {
  }

  class EulerPoints {
    var store: map<string, AccountSnapshot>
    var events: seq<PointUpdate>

    /** Every snapshot is stored under its own id. */
    ghost predicate Valid()
      reads this`store
    {
      forall id :: id in store ==> store[id].id == id
    }

    constructor ()
      ensures Valid() && store == map[] && events == []
    {
      store := map[];
      events := [];
    }

    /** `processAccount`: load the snapshot if none was passed, accrue its
        points, read the latest snapshot and emit the audit record. */
    method ProcessAccount(account: string, passed: Option<AccountSnapshot>, trigger: string, chain: Chain)
      returns (s: AccountSnapshot)
      modifies this`events
      ensures s == LatestSnapshot(chain, account)
      ensures events == old(events) + [RecordFor(store, account, passed, trigger, chain)]
    {
      var prior := passed;
      if prior.None? && account in store {
        prior := Some(store[account]);
      }
      var points := if prior.Some? then CalcPoints(prior.value, chain) else 0.0;
      s := LatestSnapshot(chain, account);
      events := events + [Record(account, trigger, prior, points, s)];
    }

    /** Process `accounts` one after the other against the store as it was
        before any of them (the sequential runtime's reading of `Promise.all`). */
    method ProcessEach(accounts: seq<string>, passed: seq<Option<AccountSnapshot>>, trigger: string, chain: Chain)
      returns (snaps: seq<AccountSnapshot>)
      requires |passed| == |accounts|
      modifies this`events
      ensures |snaps| == |accounts| && forall i :: 0 <= i < |accounts| ==> snaps[i] == LatestSnapshot(chain, accounts[i])
      ensures events == old(events) + Emitted(store, accounts, passed, trigger, chain)
    {
      snaps := [];
      var i := 0;
      while i < |accounts|
        invariant 0 <= i <= |accounts|
        invariant |snaps| == i && forall k :: 0 <= k < i ==> snaps[k] == LatestSnapshot(chain, accounts[k])
        invariant events == old(events) + Emitted(store, accounts[..i], passed[..i], trigger, chain)
      {
        var s := ProcessAccount(accounts[i], passed[i], trigger, chain);
        assert accounts[..i + 1][..i] == accounts[..i] && passed[..i + 1][..i] == passed[..i];
        snaps := snaps + [s];
        i := i + 1;
      }
      assert accounts[..i] == accounts && passed[..i] == passed;
    }

    /** `ctx.store.upsert(newSnapshots)`: every new snapshot under its id
        (two snapshots with one id are the same snapshot). */
    method Upsert(snaps: seq<AccountSnapshot>)
      requires Valid()
      requires Store.Consistent(Ids(snaps), snaps)
      modifies this`store
      ensures Valid()
      ensures forall k :: k in store <==> k in old(store) || k in Ids(snaps)
      ensures forall k :: k in old(store) && k !in Ids(snaps) ==> store[k] == old(store)[k]
      ensures forall i :: 0 <= i < |snaps| ==> snaps[i].id in store && store[snaps[i].id] == snaps[i]
    {
      Store.UpsertedAll(store, Ids(snaps), snaps);
      store := Store.Upserted(store, Store.Zip(Ids(snaps), snaps));
    }

    /** A handler that processes one account with no snapshot passed and
        upserts it. */
    method ProcessSingle(account: string, trigger: string, chain: Chain)
      requires Valid()
      modifies this`store, this`events
      ensures Valid()
      ensures store == old(store)[account := LatestSnapshot(chain, account)]
      ensures events == old(events) + [RecordFor(old(store), account, None, trigger, chain)]
    {
      var s := ProcessAccount(account, None, trigger, chain);
      Upsert([s]);
      assert Ids([s]) == [account];
    }

    /** Deposit: the owner. */
    method OnDeposit(owner: string, chain: Chain)
      requires Valid()
      modifies this`store, this`events
      ensures Valid()
      ensures store == old(store)[owner := LatestSnapshot(chain, owner)]
      ensures events == old(events) + [RecordFor(old(store), owner, None, "Deposit", chain)]
    {
      ProcessSingle(owner, "Deposit", chain);
    }

    /** Borrow: the borrowing account. */
    method OnBorrow(account: string, chain: Chain)
      requires Valid()
      modifies this`store, this`events
      ensures Valid()
      ensures store == old(store)[account := LatestSnapshot(chain, account)]
      ensures events == old(events) + [RecordFor(old(store), account, None, "Borrow", chain)]
    {
      ProcessSingle(account, "Borrow", chain);
    }

    /** Liquidate: the violator. */
    method OnLiquidate(violator: string, chain: Chain)
      requires Valid()
      modifies this`store, this`events
      ensures Valid()
      ensures store == old(store)[violator := LatestSnapshot(chain, violator)]
      ensures events == old(events) + [RecordFor(old(store), violator, None, "Liquidate", chain)]
    {
      ProcessSingle(violator, "Liquidate", chain);
    }

    /** Repay: the account repaid for. */
    method OnRepay(account: string, chain: Chain)
      requires Valid()
      modifies this`store, this`events
      ensures Valid()
      ensures store == old(store)[account := LatestSnapshot(chain, account)]
      ensures events == old(events) + [RecordFor(old(store), account, None, "Repay", chain)]
    {
      ProcessSingle(account, "Repay", chain);
    }

    /** Transfer: the non-null sender and receiver, each valued afresh; every
        other account keeps its snapshot. */
    method OnTransfer(from: string, to: string, chain: Chain)
      requires Valid()
      modifies this`store, this`events
      ensures Valid()
      ensures forall k :: k in store <==> k in old(store) || (k in [from, to] && !IsNullAddress(k))
      ensures forall k :: k in old(store) && (IsNullAddress(k) || k !in [from, to]) ==> store[k] == old(store)[k]
      ensures forall a :: a in [from, to] && !IsNullAddress(a) ==> a in store && store[a] == LatestSnapshot(chain, a)
      ensures events == old(events) + Emitted(old(store), NonNull([from, to]), NoneEach(|NonNull([from, to])|), "Transfer", chain)
    {
      var parties := NonNull([from, to]);
      var snaps := ProcessEach(parties, NoneEach(|parties|), "Transfer", chain);
      LatestConsistent(parties, snaps, chain);
      Upsert(snaps);
      forall a | a in [from, to] && !IsNullAddress(a)
        ensures a in store && store[a] == LatestSnapshot(chain, a)
      {
        var i :| 0 <= i < |parties| && parties[i] == a;
        assert snaps[i].id == a;
      }
    }

    /** The time interval: every stored snapshot (`order` lists their ids
        once each) is reprocessed with itself passed in and upserted, so the
        store keeps its ids and holds the latest snapshot of each. */
    method OnTimeInterval(order: seq<string>, chain: Chain)
      requires Valid()
      requires forall id :: id in order <==> id in store
      modifies this`store, this`events
      ensures Valid()
      ensures forall k :: k in store <==> k in old(store)
      ensures forall k :: k in store ==> store[k] == LatestSnapshot(chain, k)
      ensures events == old(events) + Emitted(old(store), order, Stored(old(store), order), IntervalTrigger, chain)
    {
      var snaps := ProcessEach(order, Stored(store, order), IntervalTrigger, chain);
      LatestConsistent(order, snaps, chain);
      Upsert(snaps);
      forall k | k in store
        ensures store[k] == LatestSnapshot(chain, k)
      {
        var i :| 0 <= i < |order| && order[i] == k;
        assert snaps[i].id == k;
      }
    }
  }
}
