/** The latest-only boost store of the USR/USDC Aerodrome deployment: a flat
    map from lower-cased account to its current flags, replaced wholesale by a
    paged refresh in which a later row for an account overwrites an earlier
    one. The multiplier adds a fixed increment per active flag, and the dinero
    and hyperliquid increments drop at the cutover instant S1. The
    deployment's processor reads this store but never refreshes it, so there
    the map stays empty; see `AeroUsdcProcessor.NeverRefreshedIsUnboosted`. */
module BoostLatest {
  import opened Common

  datatype Boost = Boost(account: string, dinero: bool, blueprint: bool, hyperliquid: bool)

  /** One row of the endpoint's answer, flags as 0/1 columns. */
  datatype Row = Row(account: string, dineroBoost: int, blueprintBoost: int, hyperliquidBoost: int)

  /** One answer: no `result`, or a result whose `rows` may be missing. */
  datatype Response = NoResult | QueryResult(rows: Option<seq<Row>>)

  /** 2024-12-12 00:00:00 UTC in milliseconds. */
  const S1Milli: int := 1733961600000
  const PageLimit: int := 10000

  function DefaultBoost(account: string): Boost {
    Boost(account, false, false, false)
  }

  /** The record of the lower-cased account, or the all-false default. */
  function Lookup(m: map<string, Boost>, account: string): Boost {
    var a := ToLower(account);
    if a in m then m[a] else DefaultBoost(a)
  }

  /** Additive policy: 1, plus 0.5 (0.1 from S1 on) for dinero, plus 0.25 for
      blueprint, plus 0.5 (0.1 from S1 on) for hyperliquid. */
  function Multiplier(b: Boost, ts: int): real {
    1.0
    + (if b.dinero then (if ts < S1Milli then 0.5 else 0.1) else 0.0)
    + (if b.blueprint then (if ts < S1Milli then 0.25 else 0.25) else 0.0)
    + (if b.hyperliquid then (if ts < S1Milli then 0.5 else 0.1) else 0.0)
  }

  /** The multiplier lies in [1, 2.25] before the cutover and in [1, 1.45]
      from it on; it is 1 exactly when no flag is set. */
  lemma MultiplierBounds(b: Boost, ts: int)
    ensures 1.0 <= Multiplier(b, ts)
    ensures ts < S1Milli ==> Multiplier(b, ts) <= 2.25
    ensures ts >= S1Milli ==> Multiplier(b, ts) <= 1.45
    ensures Multiplier(b, ts) == 1.0 <==> !b.dinero && !b.blueprint && !b.hyperliquid
  {
  }

  /** The cutover test is strict: at exactly S1 the later increments apply,
      one millisecond earlier the earlier ones. */
  lemma CutoverIsStrict(b: Boost)
    ensures Multiplier(b, S1Milli) == Multiplier(b, S1Milli + 1)
    ensures b.dinero ==> Multiplier(b, S1Milli - 1) - Multiplier(b, S1Milli) >= 0.4
    ensures !b.dinero && !b.hyperliquid ==> Multiplier(b, S1Milli - 1) == Multiplier(b, S1Milli)
  {
  }

  function RowToBoost(row: Row): Boost {
    Boost(row.account, row.dineroBoost == 1, row.blueprintBoost == 1, row.hyperliquidBoost == 1)
  }

  /** The map the refresh builds: `ret[account] = ...` for every row in order. */
  function Latest(rows: seq<Row>): map<string, Boost>
    decreases |rows|
  {
    if rows == [] then map[]
    else Latest(rows[..|rows| - 1])[rows[|rows| - 1].account := RowToBoost(rows[|rows| - 1])]
  }

  /** Last row wins: an account is present exactly when some row names it,
      and then holds the flags of the last such row. */
  lemma {:induction false} LatestIsLastRow(rows: seq<Row>, a: string)
    ensures a in Latest(rows) <==> exists i :: 0 <= i < |rows| && rows[i].account == a
    ensures a in Latest(rows) ==>
              exists i :: 0 <= i < |rows| && rows[i].account == a && Latest(rows)[a] == RowToBoost(rows[i])
                          && forall j :: i < j < |rows| ==> rows[j].account != a
    decreases |rows|
  {
    if rows != [] {
      var n := |rows| - 1;
      var init := rows[..n];
      LatestIsLastRow(init, a);
      if rows[n].account != a {
        if a in Latest(rows) {
          var i :| 0 <= i < |init| && init[i].account == a && Latest(init)[a] == RowToBoost(init[i])
                   && forall j :: i < j < |init| ==> init[j].account != a;
          assert rows[i] == init[i];
          assert forall j :: i < j < |rows| ==> rows[j].account != a by {
            forall j | i < j < |rows| ensures rows[j].account != a {
              if j < n { assert rows[j] == init[j]; }
            }
          }
        }
        if exists i :: 0 <= i < |rows| && rows[i].account == a {
          var i :| 0 <= i < |rows| && rows[i].account == a;
          assert i < n && init[i].account == a;
        }
      }
    }
  }

  predicate KeyedByAccount(m: map<string, Boost>) {
    forall a :: a in m ==> m[a].account == a
  }

  lemma {:induction false} LatestKeyedByAccount(rows: seq<Row>)
    ensures KeyedByAccount(Latest(rows))
    decreases |rows|
  {
    if rows != [] {
      LatestKeyedByAccount(rows[..|rows| - 1]);
    }
  }

  function Page(source: int -> Response, k: nat): Response {
    source(k * PageLimit)
  }

  /** A missing `rows` reads as an empty page. */
  function RowsOrEmpty(resp: Response): seq<Row>
    requires resp.QueryResult?
  {
    resp.rows.GetOr([])
  }

  predicate IsFullPage(resp: Response) {
    resp.QueryResult? && |RowsOrEmpty(resp)| >= PageLimit
  }

  /** The source holds finitely many rows: from page `bound` on, no page is full. */
  ghost predicate EndsBy(source: int -> Response, bound: nat) {
    forall k: nat :: k >= bound ==> !IsFullPage(Page(source, k))
  }

  /** The rows of every page up to and including the first short one, or the
      first error (no API key, no `result`). */
  ghost function ReadPages(apiKeySet: bool, source: int -> Response, k: nat, bound: nat): Result<seq<Row>>
    requires EndsBy(source, bound)
    decreases bound - k
  {
    if !apiKeySet then Err("api key not set")
    else if Page(source, k).NoResult? then Err("empty resp")
    else
      var rows := RowsOrEmpty(Page(source, k));
      if |rows| < PageLimit then Ok(rows)
      else Prepend(rows, ReadPages(apiKeySet, source, k + 1, bound))
  }

  /** A full page read after `acc`: the rows still to come follow it. */
  lemma ReadPagesFull(apiKeySet: bool, source: int -> Response, k: nat, bound: nat, acc: seq<Row>)
    requires EndsBy(source, bound) && apiKeySet && Page(source, k).QueryResult?
    requires |RowsOrEmpty(Page(source, k))| >= PageLimit
    requires ReadPages(apiKeySet, source, 0, bound) == Prepend(acc, ReadPages(apiKeySet, source, k, bound))
    ensures k < bound
    ensures ReadPages(apiKeySet, source, 0, bound)
            == Prepend(acc + RowsOrEmpty(Page(source, k)), ReadPages(apiKeySet, source, k + 1, bound))
  {
    PrependTwice(acc, RowsOrEmpty(Page(source, k)), ReadPages(apiKeySet, source, k + 1, bound));
  }

  /** The inner loop of the refresh: assign every row of one page in order. */
  method AssignAll(m: map<string, Boost>, ghost acc: seq<Row>, rows: seq<Row>) returns (r: map<string, Boost>)
    requires m == Latest(acc)
    ensures r == Latest(acc + rows)
  {
    r := m;
    var i := 0;
    assert acc + rows[..0] == acc;
    while i < |rows|
      invariant 0 <= i <= |rows|
      invariant r == Latest(acc + rows[..i])
    {
      assert (acc + rows[..i + 1])[..|acc + rows[..i + 1]| - 1] == acc + rows[..i];
      r := r[rows[i].account := RowToBoost(rows[i])];
      i := i + 1;
    }
    assert rows[..i] == rows;
  }

  /** The module-level state of the store. */
  class LatestBoosts {
    var lastUpdateTimestampMilli: int
    var accountBoosts: map<string, Boost>

    ghost predicate Valid()
      reads this
    {
      KeyedByAccount(accountBoosts)
    }

    constructor ()
      ensures Valid()
      ensures lastUpdateTimestampMilli == 0 && accountBoosts == map[]
    {
      lastUpdateTimestampMilli := 0;
      accountBoosts := map[];
    }

    /** `getBoosts`: the stored record of the lower-cased account, or the
        all-false default. */
    function GetBoosts(account: string): (b: Boost)
      reads this
      requires Valid()
      ensures b.account == ToLower(account)
      ensures ToLower(account) in accountBoosts ==> b == accountBoosts[ToLower(account)]
      ensures ToLower(account) !in accountBoosts ==> !b.dinero && !b.blueprint && !b.hyperliquid
    {
      Lookup(accountBoosts, account)
    }

    /** The lookup ignores the case of the queried account. */
    lemma GetBoostsCaseInsensitive(account: string)
      requires Valid()
      ensures GetBoosts(account) == GetBoosts(ToLower(account))
    {
      ToLowerIdempotent(account);
    }

    /** `getBoostMultiplier`: accumulate the increments of the active flags at `ts`. */
    method GetBoostMultiplier(ts: int, account: string) returns (ret: real)
      requires Valid()
      ensures ret == Multiplier(GetBoosts(account), ts)
      ensures 1.0 <= ret && ret <= (if ts < S1Milli then 2.25 else 1.45)
    {
      var boosts := GetBoosts(account);
      ret := 1.0;
      if boosts.dinero {
        ret := ret + (if ts < S1Milli then 0.5 else 0.1);
      }
      if boosts.blueprint {
        ret := ret + (if ts < S1Milli then 0.25 else 0.25);
      }
      if boosts.hyperliquid {
        ret := ret + (if ts < S1Milli then 0.5 else 0.1);
      }
      MultiplierBounds(boosts, ts);
    }

    /** `updateBoosts`: read every page (a missing `rows` is an empty page)
        and, only once all succeeded, replace the map wholesale and stamp the
        context time; a missing key or an empty answer keeps the old map. */
    method UpdateBoosts(ctxMilli: int, apiKeySet: bool, source: int -> Response, ghost bound: nat)
      returns (r: Result<map<string, Boost>>)
      requires Valid() && EndsBy(source, bound)
      modifies this
      ensures Valid()
      ensures match ReadPages(apiKeySet, source, 0, bound)
              case Ok(rows) =>
                && r == Ok(Latest(rows))
                && accountBoosts == Latest(rows)
                && lastUpdateTimestampMilli == ctxMilli
              case Err(e) => r == Err(e) && unchanged(this)
    {
      var offset := 0;
      ghost var k: nat := 0;
      ghost var acc: seq<Row> := [];
      var ret: map<string, Boost> := map[];
      assert Prepend(acc, ReadPages(apiKeySet, source, k, bound)) == ReadPages(apiKeySet, source, 0, bound) by {
        if ReadPages(apiKeySet, source, 0, bound).Ok? {
          assert [] + ReadPages(apiKeySet, source, 0, bound).value == ReadPages(apiKeySet, source, 0, bound).value;
        }
      }
      while true
        invariant offset == k * PageLimit && k <= bound
        invariant ret == Latest(acc)
        invariant ReadPages(apiKeySet, source, 0, bound) == Prepend(acc, ReadPages(apiKeySet, source, k, bound))
        invariant unchanged(this)
        decreases bound - k
      {
        if !apiKeySet {
          return Err("api key not set");
        }
        var resp := source(offset);
        assert resp == Page(source, k);
        if resp.NoResult? {
          return Err("empty resp");
        }
        var rows := resp.rows.GetOr([]);
        ret := AssignAll(ret, acc, rows);
        offset := offset + PageLimit;
        if |rows| < PageLimit {
          acc := acc + rows;
          break;
        }
        ReadPagesFull(apiKeySet, source, k, bound, acc);
        acc := acc + rows;
        k := k + 1;
      }
      LatestKeyedByAccount(acc);
      lastUpdateTimestampMilli := ctxMilli;
      accountBoosts := ret;
      r := Ok(ret);
    }
  }
}
