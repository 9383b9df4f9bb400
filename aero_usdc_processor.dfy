/** Points accrual for liquidity providers of the USR/USDC Aerodrome pool on
    Base. A snapshot is kept per account under the account itself; its value
    is the account's pro-rata share of the two reserves. Every event
    revalues every stored account: Swap and the time interval with its
    stored snapshot, Transfer likewise except for its non-null parties,
    which are processed with no snapshot at all. Processing never reads the
    store, so those parties accrue nothing for the time since their last
    snapshot. The boost multiplier is read from the latest-only boost store,
    whose map is a field of `Chain`. The processor never calls the store's
    refresh, so as deployed that map stays empty and every multiplier is 1
    (`NeverRefreshedIsUnboosted`). */
module AeroUsdcProcessor {
  import opened Common
  import Accrual
  import BoostLatest
  import Store

  const IntervalTrigger: string := "TimeInterval"

  /** The deployment's constants, defined in its own configuration file:
      daily points, one day in milliseconds and the two tokens' decimals. */
  datatype Params = Params(dailyPoints: real, msPerDay: int, usrDecimals: nat, usdcDecimals: nat)

  datatype AccountSnapshot = AccountSnapshot(
    id: string, timestampMilli: int, usrBalance: real, usdcBalance: real, usdValue: real)

  /** What one handler invocation sees: the block time, the pool's
      `balanceOf`, `totalSupply` and `getReserves`, and the boost store's
      map at that moment. */
  datatype Chain = Chain(
    timestampMilli: int, lpBalance: string -> nat, totalSupply: nat, reserveUsr: nat, reserveUsdc: nat,
    boosts: map<string, BoostLatest.Boost>)

  /** The "point_update" audit record; before-values default to 0. */
  datatype PointUpdate = PointUpdate(
    account: string, points: real,
    snapshotTimestampMilli: int, snapshotUsrBalance: real, snapshotUsdcBalance: real, snapshotUsdValue: real,
    newTimestampMilli: int, newUsrBalance: real, newUsdcBalance: real, newUsdValue: real,
    boosts: BoostLatest.Boost, triggerEvent: string)

  /** `getBoostMultiplier` at the block time. */
  function Multiplier(chain: Chain, account: string): real {
    BoostLatest.Multiplier(BoostLatest.Lookup(chain.boosts, account), chain.timestampMilli)
  }

  /** `calcPoints`: nothing for a snapshot from the future or from this very
      instant; otherwise value × daily points × elapsed days × the boost
      multiplier of the snapshot's account. */
  function CalcPoints(params: Params, s: AccountSnapshot, chain: Chain): (r: real)
    requires params.msPerDay > 0
    ensures chain.timestampMilli <= s.timestampMilli ==> r == 0.0
    ensures r == Accrual.Points(s.usdValue, params.dailyPoints, params.msPerDay, s.timestampMilli,
                                chain.timestampMilli, Multiplier(chain, s.id))
  {
    var now := chain.timestampMilli;
    if now < s.timestampMilli then 0.0
    else if now == s.timestampMilli then 0.0
    else
      var deltaDay := (now - s.timestampMilli) as real / params.msPerDay as real;
      s.usdValue * params.dailyPoints * deltaDay * Multiplier(chain, s.id)
  }

  /** The boost scales the unboosted accrual by a factor in [1, 2.25] before
      the cutover and in [1, 1.45] from it on. */
  lemma CalcPointsBoostRange(params: Params, s: AccountSnapshot, chain: Chain)
    requires params.msPerDay > 0 && params.dailyPoints >= 0.0 && s.usdValue >= 0.0
    ensures var base := Accrual.Points(s.usdValue, params.dailyPoints, params.msPerDay, s.timestampMilli,
                                       chain.timestampMilli, 1.0);
            && base <= CalcPoints(params, s, chain)
            && CalcPoints(params, s, chain)
               <= base * (if chain.timestampMilli < BoostLatest.S1Milli then 2.25 else 1.45)
  {
    var m := Multiplier(chain, s.id);
    BoostLatest.MultiplierBounds(BoostLatest.Lookup(chain.boosts, s.id), chain.timestampMilli);
    Accrual.PointsNonNegative(s.usdValue, params.dailyPoints, params.msPerDay, s.timestampMilli,
                              chain.timestampMilli, 1.0);
    var base := Accrual.Points(s.usdValue, params.dailyPoints, params.msPerDay, s.timestampMilli,
                               chain.timestampMilli, 1.0);
    var cap := if chain.timestampMilli < BoostLatest.S1Milli then 2.25 else 1.45;
    assert CalcPoints(params, s, chain) == base * m;
    assert base * 1.0 <= base * m <= base * cap;
  }

  /** A token balance: reserve × LP balance, scaled down by the decimals,
      divided by the LP supply. */
  function Balance(reserve: nat, lp: nat, decimals: nat, supply: nat): real
    requires supply > 0
  {
    (reserve * lp) as real / Pow10(decimals) as real / supply as real
  }

  /** Scaled back up and multiplied by the supply, the balance is reserve × LP. */
  lemma BalanceScaledBack(reserve: nat, lp: nat, decimals: nat, supply: nat)
    requires supply > 0
    ensures Balance(reserve, lp, decimals, supply) * supply as real * Pow10(decimals) as real == (reserve * lp) as real
  {
  }

  /** Balances are pro-rata: splitting LP tokens splits the balance. */
  lemma BalanceAdditive(reserve: nat, lp1: nat, lp2: nat, decimals: nat, supply: nat)
    requires supply > 0
    ensures Balance(reserve, lp1 + lp2, decimals, supply)
            == Balance(reserve, lp1, decimals, supply) + Balance(reserve, lp2, decimals, supply)
  {
    var d := Pow10(decimals) as real;
    var n := supply as real;
    var a := (reserve * lp1) as real;
    var b := (reserve * lp2) as real;
    assert reserve * (lp1 + lp2) == reserve * lp1 + reserve * lp2;
    DivideSum(a, b, d);
    DivideSum(a / d, b / d, n);
  }

  /** Holding the whole supply is holding the whole reserve. */
  lemma BalanceOfWholeSupply(reserve: nat, decimals: nat, supply: nat)
    requires supply > 0
    ensures Balance(reserve, supply, decimals, supply) == reserve as real / Pow10(decimals) as real
  {
    var d := Pow10(decimals) as real;
    var n := supply as real;
    var r := reserve as real / d;
    assert (reserve * supply) as real == reserve as real * n;
    assert r * d == reserve as real;
    assert (r * n) * d == reserve as real * n;
    assert (reserve * supply) as real / d == r * n;
  }

  lemma DivideSum(x: real, y: real, d: real)
    requires d > 0.0
    ensures (x + y) / d == x / d + y / d
  {
    var p := x / d;
    var q := y / d;
    assert p * d == x && q * d == y;
    assert (p + q) * d == x + y;
  }

  /** The account's snapshot now: its shares of both reserves, worth their
      sum (both tokens count at 1 USD). */
  function LatestSnapshot(params: Params, chain: Chain, account: string): (s: AccountSnapshot)
    requires chain.totalSupply > 0
    ensures s.id == account && s.timestampMilli == chain.timestampMilli
    ensures s.usdValue == s.usrBalance + s.usdcBalance
    ensures s.usrBalance >= 0.0 && s.usdcBalance >= 0.0
  {
    var lp := chain.lpBalance(account);
    var usr := Balance(chain.reserveUsr, lp, params.usrDecimals, chain.totalSupply);
    var usdc := Balance(chain.reserveUsdc, lp, params.usdcDecimals, chain.totalSupply);
    AccountSnapshot(account, chain.timestampMilli, usr, usdc, usr + usdc)
  }

  /** The audit record of processing `account` with `passed`; the store is
      not consulted. */
  function RecordFor(params: Params, account: string, passed: Option<AccountSnapshot>, trigger: string,
                     chain: Chain): PointUpdate
    requires params.msPerDay > 0 && chain.totalSupply > 0
  {
    var s := LatestSnapshot(params, chain, account);
    var b := BoostLatest.Lookup(chain.boosts, account);
    match passed
    case None =>
      PointUpdate(account, 0.0, 0, 0.0, 0.0, 0.0,
                  s.timestampMilli, s.usrBalance, s.usdcBalance, s.usdValue, b, trigger)
    case Some(p) =>
      PointUpdate(account, CalcPoints(params, p, chain), p.timestampMilli, p.usrBalance, p.usdcBalance, p.usdValue,
                  s.timestampMilli, s.usrBalance, s.usdcBalance, s.usdValue, b, trigger)
  }

  /** What `processAccount` records: the points of the snapshot passed in,
      or none and an all-zero before-side without one (the store is not
      consulted); the after-side of the latest snapshot; the account's boost
      flags. */
  lemma RecordForSpec(params: Params, account: string, passed: Option<AccountSnapshot>, trigger: string,
                      chain: Chain)
    requires params.msPerDay > 0 && chain.totalSupply > 0
    ensures var e := RecordFor(params, account, passed, trigger, chain);
            && e.account == account && e.triggerEvent == trigger
            && e.newTimestampMilli == chain.timestampMilli
            && e.newUsdValue == LatestSnapshot(params, chain, account).usdValue
            && e.newUsdValue == e.newUsrBalance + e.newUsdcBalance
            && e.boosts == BoostLatest.Lookup(chain.boosts, account)
            && (passed.Some? ==>
                  e.points == CalcPoints(params, passed.value, chain)
                  && e.snapshotTimestampMilli == passed.value.timestampMilli
                  && e.snapshotUsdValue == passed.value.usdValue)
            && (passed.None? ==>
                  e.points == 0.0 && e.snapshotTimestampMilli == 0 && e.snapshotUsrBalance == 0.0
                  && e.snapshotUsdcBalance == 0.0 && e.snapshotUsdValue == 0.0)
  {
  }

  /** With the boost map never refreshed (empty), every account has the
      multiplier 1 and an all-false boost record. */
  lemma NeverRefreshedIsUnboosted(chain: Chain, account: string)
    requires chain.boosts == map[]
    ensures Multiplier(chain, account) == 1.0
    ensures var b := BoostLatest.Lookup(chain.boosts, account);
            !b.dinero && !b.blueprint && !b.hyperliquid
  {
  }

  /** The audit records of processing `accounts` in order. */
  function Emitted(params: Params, accounts: seq<string>, passed: seq<Option<AccountSnapshot>>, trigger: string,
                   chain: Chain): (es: seq<PointUpdate>)
    requires params.msPerDay > 0 && chain.totalSupply > 0
    requires |passed| == |accounts|
    ensures |es| == |accounts|
    ensures forall i :: 0 <= i < |accounts| ==> es[i] == RecordFor(params, accounts[i], passed[i], trigger, chain)
    decreases |accounts|
  {
    if accounts == [] then []
    else
      var n := |accounts| - 1;
      Emitted(params, accounts[..n], passed[..n], trigger, chain) + [RecordFor(params, accounts[n], passed[n], trigger, chain)]
  }

  /** Processed with no snapshot, an account accrues nothing and its record's
      before-side is all zeros, whatever the store holds for it. */
  lemma NoSnapshotAccruesNothing(params: Params, accounts: seq<string>, trigger: string, chain: Chain)
    requires params.msPerDay > 0 && chain.totalSupply > 0
    ensures forall e :: e in Emitted(params, accounts, NoneEach(|accounts|), trigger, chain) ==>
              e.points == 0.0 && e.snapshotTimestampMilli == 0 && e.snapshotUsdValue == 0.0
  {
    var es := Emitted(params, accounts, NoneEach(|accounts|), trigger, chain);
    forall e | e in es
      ensures e.points == 0.0 && e.snapshotTimestampMilli == 0 && e.snapshotUsdValue == 0.0
    {
      var i :| 0 <= i < |es| && es[i] == e;
    }
  }

  /** The consequence on Transfer: a party whose stored snapshot is worth
      something and has aged would have accrued points had it been passed
      in, yet its record carries none. */
  lemma TransferPartyForfeitsAccrual(params: Params, s: AccountSnapshot, trigger: string, chain: Chain)
    requires params.msPerDay > 0 && chain.totalSupply > 0
    requires params.dailyPoints > 0.0 && s.usdValue > 0.0 && chain.timestampMilli > s.timestampMilli
    ensures RecordFor(params, s.id, Some(s), trigger, chain).points > 0.0
    ensures RecordFor(params, s.id, None, trigger, chain).points == 0.0
  {
    var b := BoostLatest.Lookup(chain.boosts, s.id);
    BoostLatest.MultiplierBounds(b, chain.timestampMilli);
    Accrual.PointsNonNegative(s.usdValue, params.dailyPoints, params.msPerDay, s.timestampMilli,
                              chain.timestampMilli, Multiplier(chain, s.id));
    Accrual.NoAccrualWithoutElapsedTime(s.usdValue, params.dailyPoints, params.msPerDay, s.timestampMilli,
                                        chain.timestampMilli, Multiplier(chain, s.id));
  }

  /** The listed ids that are not parties (`!accounts.includes(id)`, exact). */
  function Others(order: seq<string>, parties: seq<string>): (r: seq<string>)
    ensures forall id :: id in r <==> id in order && id !in parties
    ensures |r| <= |order|
  {
    if order == [] then []
    else (if order[0] in parties then [] else [order[0]]) + Others(order[1..], parties)
  }

  /** The ids of a list of snapshots. */
  function Ids(snaps: seq<AccountSnapshot>): (ids: seq<string>)
    ensures |ids| == |snaps| && forall i :: 0 <= i < |snaps| ==> ids[i] == snaps[i].id
  {
    seq(|snaps|, i requires 0 <= i < |snaps| => snaps[i].id)
  }

  /** The stored snapshot of each listed id. */
  function Stored(store0: map<string, AccountSnapshot>, order: seq<string>): (ps: seq<Option<AccountSnapshot>>)
    requires forall id :: id in order ==> id in store0
    ensures |ps| == |order| && forall i :: 0 <= i < |order| ==> ps[i] == Some(store0[order[i]])
  {
    seq(|order|, i requires 0 <= i < |order| => Some(store0[order[i]]))
  }

  /** The snapshots now of a list of accounts. */
  function Snapshots(params: Params, chain: Chain, accounts: seq<string>): (snaps: seq<AccountSnapshot>)
    requires chain.totalSupply > 0
    ensures |snaps| == |accounts|
    ensures forall i :: 0 <= i < |accounts| ==> snaps[i] == LatestSnapshot(params, chain, accounts[i])
  {
    seq(|accounts|, i requires 0 <= i < |accounts| => LatestSnapshot(params, chain, accounts[i]))
  }

  lemma SnapshotsAppend(params: Params, chain: Chain, xs: seq<string>, ys: seq<string>)
    requires chain.totalSupply > 0
    ensures Snapshots(params, chain, xs + ys) == Snapshots(params, chain, xs) + Snapshots(params, chain, ys)
  {
  }

  /** The new snapshots of a list of accounts sit under those accounts and
      agree wherever the accounts do. */
  lemma SnapshotsConsistent(params: Params, chain: Chain, accounts: seq<string>)
    requires chain.totalSupply > 0
    ensures Ids(Snapshots(params, chain, accounts)) == accounts
    ensures Store.Consistent(Ids(Snapshots(params, chain, accounts)), Snapshots(params, chain, accounts))
  {
  }

  /** After upserting the snapshots of now of a list of accounts covering every
      stored account, the store holds exactly those accounts, each with its
      snapshot of now. */
  lemma UpsertedSnapshots(params: Params, chain: Chain, store0: map<string, AccountSnapshot>,
                          store1: map<string, AccountSnapshot>, accounts: seq<string>, snaps: seq<AccountSnapshot>)
    requires chain.totalSupply > 0
    requires snaps == Snapshots(params, chain, accounts)
    requires forall k :: k in store1 <==> k in store0 || k in Ids(snaps)
    requires forall i :: 0 <= i < |snaps| ==> snaps[i].id in store1 && store1[snaps[i].id] == snaps[i]
    requires forall k :: k in store0 ==> k in accounts
    ensures forall k :: k in store1 <==> k in accounts
    ensures forall k :: k in store1 ==> store1[k] == LatestSnapshot(params, chain, k)
  {
    SnapshotsConsistent(params, chain, accounts);
    forall k | k in store1
      ensures store1[k] == LatestSnapshot(params, chain, k)
    {
      var i :| 0 <= i < |accounts| && accounts[i] == k;
      assert Ids(snaps)[i] == k;
    }
  }

  /** Upserting the snapshots of the listed accounts and of the non-null
      parties of a Transfer adds exactly those parties to the stored accounts
      and leaves every account with its snapshot of now. */
  lemma TransferStore(params: Params, chain: Chain, store0: map<string, AccountSnapshot>,
                      store1: map<string, AccountSnapshot>, order: seq<string>, from: string, to: string,
                      snaps: seq<AccountSnapshot>)
    requires chain.totalSupply > 0
    requires forall id :: id in order <==> id in store0
    requires snaps == Snapshots(params, chain, Others(order, NonNull([from, to])) + NonNull([from, to]))
    requires forall k :: k in store1 <==> k in store0 || k in Ids(snaps)
    requires forall i :: 0 <= i < |snaps| ==> snaps[i].id in store1 && store1[snaps[i].id] == snaps[i]
    ensures forall k :: k in store1 <==> k in store0 || (k in [from, to] && !IsNullAddress(k))
    ensures forall k :: k in store1 ==> store1[k] == LatestSnapshot(params, chain, k)
  {
    var parties := NonNull([from, to]);
    var accounts := Others(order, parties) + parties;
    assert forall k :: k in accounts <==> k in order || k in parties;
    UpsertedSnapshots(params, chain, store0, store1, accounts, snaps);
  }


  class AeroPoints {
    const params: Params
    var store: map<string, AccountSnapshot>
    var events: seq<PointUpdate>

    /** Every snapshot is stored under its own id. */
    ghost predicate Valid()
      reads this`store
    {
      forall id :: id in store ==> store[id].id == id
    }

    constructor (params: Params)
      requires params.msPerDay > 0
      ensures Valid() && this.params == params && store == map[] && events == []
    {
      this.params := params;
      store := map[];
      events := [];
    }

    /** `process`: accrue the points of the snapshot passed in (none if
        none), value the account now and emit the audit record. */
    method Process(account: string, passed: Option<AccountSnapshot>, trigger: string, chain: Chain)
      returns (s: AccountSnapshot)
      requires params.msPerDay > 0 && chain.totalSupply > 0
      modifies this`events
      ensures s == LatestSnapshot(params, chain, account)
      ensures events == old(events) + [RecordFor(params, account, passed, trigger, chain)]
    {
      var points := if passed.Some? then CalcPoints(params, passed.value, chain) else 0.0;
      var before := passed.GetOr(AccountSnapshot(account, 0, 0.0, 0.0, 0.0));
      s := LatestSnapshot(params, chain, account);
      var boosts := BoostLatest.Lookup(chain.boosts, account);
      events := events + [PointUpdate(account, points, before.timestampMilli, before.usrBalance, before.usdcBalance,
                                      before.usdValue, s.timestampMilli, s.usrBalance, s.usdcBalance, s.usdValue,
                                      boosts, trigger)];
    }

    /** Process `accounts` one after the other. */
    method ProcessEach(accounts: seq<string>, passed: seq<Option<AccountSnapshot>>, trigger: string, chain: Chain)
      returns (snaps: seq<AccountSnapshot>)
      requires params.msPerDay > 0 && chain.totalSupply > 0
      requires |passed| == |accounts|
      modifies this`events
      ensures snaps == Snapshots(params, chain, accounts)
      ensures events == old(events) + Emitted(params, accounts, passed, trigger, chain)
    {
      snaps := [];
      var i := 0;
      while i < |accounts|
        invariant 0 <= i <= |accounts| && |snaps| == i
        invariant forall k :: 0 <= k < i ==> snaps[k] == LatestSnapshot(params, chain, accounts[k])
        invariant events == old(events) + Emitted(params, accounts[..i], passed[..i], trigger, chain)
      {
        var s := Process(accounts[i], passed[i], trigger, chain);
        assert accounts[..i + 1][..i] == accounts[..i] && passed[..i + 1][..i] == passed[..i];
        snaps := snaps + [s];
        i := i + 1;
      }
      assert accounts[..i] == accounts && passed[..i] == passed;
      assert snaps == Snapshots(params, chain, accounts);
    }

    /** `ctx.store.upsert(newSnapshots)`: every new snapshot under its id
        (two snapshots with one id are the same snapshot). */
    method Upsert(snaps: seq<AccountSnapshot>)
      requires Valid()
      requires Store.Consistent(Ids(snaps), snaps)
      modifies this`store
      ensures Valid()
      ensures forall k :: k in store <==> k in old(store) || k in Ids(snaps)
      ensures forall k :: k in old(store) && k !in Ids(snaps) ==> store[k] == old(store)[k]
      ensures forall i :: 0 <= i < |snaps| ==> snaps[i].id in store && store[snaps[i].id] == snaps[i]
    {
      Store.UpsertedAll(store, Ids(snaps), snaps);
      store := Store.Upserted(store, Store.Zip(Ids(snaps), snaps));
    }

    /** Swap and the time interval: every stored snapshot (`order` lists
        their ids once each) is reprocessed with itself passed in, and all
        are upserted. */
    method Reprocess(order: seq<string>, trigger: string, chain: Chain)
      requires Valid() && params.msPerDay > 0 && chain.totalSupply > 0
      requires forall id :: id in order <==> id in store
      modifies this`store, this`events
      ensures Valid()
      ensures forall k :: k in store <==> k in old(store)
      ensures forall k :: k in store ==> store[k] == LatestSnapshot(params, chain, k)
      ensures events == old(events) + Emitted(params, order, Stored(old(store), order), trigger, chain)
    {
      var snaps := ProcessEach(order, Stored(store, order), trigger, chain);
      SnapshotsConsistent(params, chain, order);
      Upsert(snaps);
      forall k | k in store
        ensures store[k] == LatestSnapshot(params, chain, k)
      {
        var i :| 0 <= i < |order| && order[i] == k;
        assert snaps[i].id == k;
      }
    }

    method OnSwap(order: seq<string>, chain: Chain)
      requires Valid() && params.msPerDay > 0 && chain.totalSupply > 0
      requires forall id :: id in order <==> id in store
      modifies this`store, this`events
      ensures Valid()
      ensures forall k :: k in store <==> k in old(store)
      ensures forall k :: k in store ==> store[k] == LatestSnapshot(params, chain, k)
      ensures events == old(events) + Emitted(params, order, Stored(old(store), order), "Swap", chain)
    {
      Reprocess(order, "Swap", chain);
    }

    method OnTimeInterval(order: seq<string>, chain: Chain)
      requires Valid() && params.msPerDay > 0 && chain.totalSupply > 0
      requires forall id :: id in order <==> id in store
      modifies this`store, this`events
      ensures Valid()
      ensures forall k :: k in store <==> k in old(store)
      ensures forall k :: k in store ==> store[k] == LatestSnapshot(params, chain, k)
      ensures events == old(events) + Emitted(params, order, Stored(old(store), order), IntervalTrigger, chain)
    {
      Reprocess(order, IntervalTrigger, chain);
    }

    /** Transfer: every stored snapshot whose id is not a non-null party is
        reprocessed with itself passed in, then each party with none; all are
        upserted, so every account, stored or party, holds its snapshot of
        now, and the parties' records accrue nothing. */
    method OnTransfer(from: string, to: string, order: seq<string>, chain: Chain)
      requires Valid() && params.msPerDay > 0 && chain.totalSupply > 0
      requires forall id :: id in order <==> id in store
      modifies this`store, this`events
      ensures Valid()
      ensures forall k :: k in store <==> k in old(store) || (k in [from, to] && !IsNullAddress(k))
      ensures forall k :: k in store ==> store[k] == LatestSnapshot(params, chain, k)
      ensures var parties := NonNull([from, to]);
              var others := Others(order, parties);
              events == old(events) + Emitted(params, others, Stored(old(store), others), "Transfer", chain)
                                    + Emitted(params, parties, NoneEach(|parties|), "Transfer", chain)
    {
      ghost var store0 := store;
      var parties := NonNull([from, to]);
      var others := Others(order, parties);
      var snaps0 := ProcessEach(others, Stored(store, others), "Transfer", chain);
      var snaps1 := ProcessEach(parties, NoneEach(|parties|), "Transfer", chain);
      var snaps := snaps0 + snaps1;
      SnapshotsAppend(params, chain, others, parties);
      SnapshotsConsistent(params, chain, others + parties);
      Upsert(snaps);
      TransferStore(params, chain, store0, store, order, from, to, snaps);
    }
  }
}
