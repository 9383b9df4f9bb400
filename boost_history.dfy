/** The time-series boost store of the USR holding deployment: a process-wide
    cache mapping each (lower-cased) account to its boost records in arrival
    order, refreshed from a paged SQL source at most once every ten minutes and
    queried by a rightmost-at-or-before binary search. The multiplier doubles
    once per active flag. */
module BoostHistory {
  import opened Common

  /** A boost record: the flags an account held from `timestampMilli` on. */
  datatype Boost = Boost(account: string, timestampMilli: int, dinero: bool, blueprint: bool)

  /** One row of the SQL answer; the query already lower-cases `account`
      and returns the flags as 0/1 columns. */
  datatype Row = Row(account: string, timestampMilli: int, dinero: int, blueprint: int)

  /** One HTTP answer: no `result` at all, or a result whose `rows` may be missing. */
  datatype Response = NoResult | QueryResult(rows: Option<seq<Row>>)

  /** Account to boost records, in the order the source returned them. */
  type History = map<string, seq<Boost>>

  const UpdateIntervalMilli: int := 10 * 60 * 1000
  const PageLimit: int := 10000

  /** The record returned for an account with no applicable boost. */
  function DefaultBoost(account: string, t: int): Boost {
    Boost(account, t, false, false)
  }

  /** Multiplicative policy: start at 1 and double for each active flag. */
  function Multiplier(b: Boost): (r: int)
    ensures r == 1 || r == 2 || r == 4
    ensures r == 1 <==> !b.dinero && !b.blueprint
    ensures r == 4 <==> b.dinero && b.blueprint
  {
    (if b.dinero then 2 else 1) * (if b.blueprint then 2 else 1)
  }

  predicate SortedByTime(s: seq<Boost>) {
    forall i, j :: 0 <= i < j < |s| ==> s[i].timestampMilli <= s[j].timestampMilli
  }

  /** Every list is non-empty and holds only records of its own account. */
  predicate WellFormed(h: History) {
    forall a :: a in h ==> |h[a]| > 0 && forall i :: 0 <= i < |h[a]| ==> h[a][i].account == a
  }

  /** Index of the last record stamped at or before `t`, or -1 if there is none. */
  function LastAtOrBefore(s: seq<Boost>, t: int): (k: int)
    ensures -1 <= k < |s|
    ensures k >= 0 ==> s[k].timestampMilli <= t
    ensures forall j :: k < j < |s| ==> s[j].timestampMilli > t
  {
    if s == [] then -1
    else if s[|s| - 1].timestampMilli <= t then |s| - 1
    else LastAtOrBefore(s[..|s| - 1], t)
  }

  /** The record in force for `account` at time `t`: the last one stamped at
      or before `t`, or the all-false default when there is none. */
  function BoostAt(h: History, account: string, t: int): Boost {
    var a := ToLower(account);
    if a !in h then DefaultBoost(a, t)
    else
      var k := LastAtOrBefore(h[a], t);
      if k < 0 then DefaultBoost(a, t) else h[a][k]
  }

  /** A query earlier than an account's first record yields the default,
      never that first record. */
  lemma {:induction false} BeforeFirstRecordIsDefault(h: History, account: string, t: int)
    requires ToLower(account) in h && |h[ToLower(account)]| > 0
    requires SortedByTime(h[ToLower(account)])
    requires t < h[ToLower(account)][0].timestampMilli
    ensures BoostAt(h, account, t) == DefaultBoost(ToLower(account), t)
  {
  }

  /** The rightmost-at-or-before binary search with a ceiling midpoint
      (`getBoostsByTime`, the loop and the final test of index `l`). */
  method SearchLatest(boosts: seq<Boost>, t: int) returns (l: nat)
    requires |boosts| > 0
    ensures l < |boosts|
    ensures l == 0 || boosts[l].timestampMilli <= t
    ensures SortedByTime(boosts) && boosts[l].timestampMilli <= t ==> l == LastAtOrBefore(boosts, t)
    ensures SortedByTime(boosts) && boosts[l].timestampMilli > t ==> LastAtOrBefore(boosts, t) == -1
  {
    l := 0;
    var r := |boosts| - 1;
    while l < r
      invariant 0 <= l <= r < |boosts|
      invariant l == 0 || boosts[l].timestampMilli <= t
      invariant SortedByTime(boosts) ==> forall j :: r < j < |boosts| ==> boosts[j].timestampMilli > t
      decreases r - l
    {
      var m := (l + r + 1) / 2;
      if boosts[m].timestampMilli <= t {
        l := m;
      } else {
        r := m - 1;
      }
    }
  }

  /** `getBoostsByTime` after the refresh: lower-case the account, return the
      default for an unknown one, else the searched record if it is not later
      than `t`, else the default. */
  method BoostsByTime(allBoosts: History, t: int, account: string) returns (b: Boost)
    requires WellFormed(allBoosts)
    ensures b.account == ToLower(account) && b.timestampMilli <= t
    ensures ToLower(account) !in allBoosts ==> b == DefaultBoost(ToLower(account), t)
    ensures b == DefaultBoost(ToLower(account), t) || b in allBoosts[ToLower(account)]
    ensures ToLower(account) in allBoosts && SortedByTime(allBoosts[ToLower(account)]) ==>
              b == BoostAt(allBoosts, account, t)
  {
    var a := ToLower(account);
    var defaultBoost := DefaultBoost(a, t);
    if a !in allBoosts {
      return defaultBoost;
    }
    var boosts := allBoosts[a];
    var l := SearchLatest(boosts, t);
    b := if boosts[l].timestampMilli <= t then boosts[l] else defaultBoost;
  }

  // ---------------------------------------------------------------------------
  // Refresh: paging through the source and grouping rows per account.

  function RowToBoost(row: Row): Boost {
    Boost(row.account, row.timestampMilli, row.dinero == 1, row.blueprint == 1)
  }

  /** `ret[account].push(...)`, creating the list on first sight of the account. */
  function Push(h: History, row: Row): History {
    h[row.account := (if row.account in h then h[row.account] else []) + [RowToBoost(row)]]
  }

  /** The map the refresh loop builds from `rows`, one push per row in order. */
  function Group(rows: seq<Row>): History
    decreases |rows|
  {
    if rows == [] then map[] else Push(Group(rows[..|rows| - 1]), rows[|rows| - 1])
  }

  /** The rows of account `a`, in arrival order, as boost records. */
  function RowsOf(rows: seq<Row>, a: string): seq<Boost>
    decreases |rows|
  {
    if rows == [] then []
    else RowsOf(rows[..|rows| - 1], a)
         + (if rows[|rows| - 1].account == a then [RowToBoost(rows[|rows| - 1])] else [])
  }

  /** The refresh keeps every row: an account has a list exactly when it
      has a row, and its list is its rows in arrival order with each flag
      true exactly when its column is 1. */
  lemma {:induction false} GroupIsPerAccountRows(rows: seq<Row>, a: string)
    ensures a in Group(rows) <==> exists i :: 0 <= i < |rows| && rows[i].account == a
    ensures a in Group(rows) ==> Group(rows)[a] == RowsOf(rows, a)
    ensures a !in Group(rows) ==> RowsOf(rows, a) == []
    decreases |rows|
  {
    if rows != [] {
      var init := rows[..|rows| - 1];
      GroupIsPerAccountRows(init, a);
      if a in Group(rows) && rows[|rows| - 1].account != a {
        var i :| 0 <= i < |init| && init[i].account == a;
        assert rows[i].account == a;
      }
      if exists i :: 0 <= i < |rows| && rows[i].account == a {
        var i :| 0 <= i < |rows| && rows[i].account == a;
        if i < |init| { assert init[i].account == a; }
      }
    }
  }

  /** Every account the refresh creates has a non-empty list of its own records. */
  lemma {:induction false} GroupWellFormed(rows: seq<Row>)
    ensures WellFormed(Group(rows))
    decreases |rows|
  {
    if rows != [] {
      GroupWellFormed(rows[..|rows| - 1]);
    }
  }

  predicate RowsSorted(rows: seq<Row>) {
    forall i, j :: 0 <= i < j < |rows| ==> rows[i].timestampMilli <= rows[j].timestampMilli
  }

  lemma {:induction false} RowsOfBoundedBy(rows: seq<Row>, a: string, t: int)
    requires forall i :: 0 <= i < |rows| ==> rows[i].timestampMilli <= t
    ensures forall j :: 0 <= j < |RowsOf(rows, a)| ==> RowsOf(rows, a)[j].timestampMilli <= t
    decreases |rows|
  {
    if rows != [] {
      RowsOfBoundedBy(rows[..|rows| - 1], a, t);
    }
  }

  lemma {:induction false} RowsOfSorted(rows: seq<Row>, a: string)
    requires RowsSorted(rows)
    ensures SortedByTime(RowsOf(rows, a))
    decreases |rows|
  {
    if rows != [] {
      var init := rows[..|rows| - 1];
      RowsOfSorted(init, a);
      RowsOfBoundedBy(init, a, rows[|rows| - 1].timestampMilli);
    }
  }

  /** The SQL orders rows by timestamp; then every account's list is sorted,
      which is what the binary search needs. */
  lemma GroupSortedWhenRowsSorted(rows: seq<Row>, a: string)
    requires RowsSorted(rows)
    requires a in Group(rows)
    ensures SortedByTime(Group(rows)[a])
  {
    GroupIsPerAccountRows(rows, a);
    RowsOfSorted(rows, a);
  }

  /** The inner loop of the refresh: push every row of one page in order. */
  method PushAll(h: History, ghost acc: seq<Row>, rows: seq<Row>) returns (r: History)
    requires h == Group(acc)
    ensures r == Group(acc + rows)
  {
    r := h;
    var i := 0;
    assert acc + rows[..0] == acc;
    while i < |rows|
      invariant 0 <= i <= |rows|
      invariant r == Group(acc + rows[..i])
    {
      assert (acc + rows[..i + 1])[..|acc + rows[..i + 1]| - 1] == acc + rows[..i];
      r := Push(r, rows[i]);
      i := i + 1;
    }
    assert rows[..i] == rows;
  }

  /** The page at `offset = k × limit`. */
  function Page(source: int -> Response, k: nat): Response {
    source(k * PageLimit)
  }

  predicate IsFullPage(resp: Response) {
    resp.QueryResult? && resp.rows.Some? && |resp.rows.value| >= PageLimit
  }

  /** The source holds finitely many rows: from page `bound` on, no page is full. */
  ghost predicate EndsBy(source: int -> Response, bound: nat) {
    forall k: nat :: k >= bound ==> !IsFullPage(Page(source, k))
  }

  /** What reading pages from page `k` on yields: the rows of every page up to
      and including the first short one, or the first error (no API key, no
      `result`, no `rows`). */
  ghost function ReadPages(apiKeySet: bool, source: int -> Response, k: nat, bound: nat): Result<seq<Row>>
    requires EndsBy(source, bound)
    decreases bound - k
  {
    if !apiKeySet then Err("api key not set")
    else match Page(source, k)
      case NoResult => Err("empty resp")
      case QueryResult(None) => Err("rows is not iterable")
      case QueryResult(Some(rows)) =>
        if |rows| < PageLimit then Ok(rows)
        else Prepend(rows, ReadPages(apiKeySet, source, k + 1, bound))
  }

  /** A full page read after `acc`: the rows still to come follow it. */
  lemma ReadPagesFull(apiKeySet: bool, source: int -> Response, k: nat, bound: nat, acc: seq<Row>)
    requires EndsBy(source, bound) && apiKeySet && IsFullPage(Page(source, k))
    requires ReadPages(apiKeySet, source, 0, bound) == Prepend(acc, ReadPages(apiKeySet, source, k, bound))
    ensures k < bound
    ensures ReadPages(apiKeySet, source, 0, bound)
            == Prepend(acc + Page(source, k).rows.value, ReadPages(apiKeySet, source, k + 1, bound))
  {
    PrependTwice(acc, Page(source, k).rows.value, ReadPages(apiKeySet, source, k + 1, bound));
  }

  /** The module-level cache state of the boost store. */
  class BoostCache {
    var lastUpdateTimestampMilli: int
    var accountBoosts: History

    ghost predicate Valid()
      reads this
    {
      WellFormed(accountBoosts)
    }

    constructor ()
      ensures Valid()
      ensures lastUpdateTimestampMilli == 0 && accountBoosts == map[]
    {
      lastUpdateTimestampMilli := 0;
      accountBoosts := map[];
    }

    /** `fetchBoosts`: serve the cache while it is younger than ten minutes;
        otherwise read every page and, only once all succeeded, replace the
        map wholesale and stamp the refresh time. `nowMilli` and `doneMilli`
        are the two readings of the wall clock. */
    method FetchBoosts(nowMilli: int, doneMilli: int, apiKeySet: bool, source: int -> Response, ghost bound: nat)
      returns (r: Result<History>)
      requires Valid() && EndsBy(source, bound)
      modifies this
      ensures Valid()
      ensures nowMilli - old(lastUpdateTimestampMilli) < UpdateIntervalMilli ==>
                r == Ok(old(accountBoosts)) && unchanged(this)
      ensures nowMilli - old(lastUpdateTimestampMilli) >= UpdateIntervalMilli ==>
                match ReadPages(apiKeySet, source, 0, bound)
                case Ok(rows) =>
                  && r == Ok(Group(rows))
                  && accountBoosts == Group(rows)
                  && lastUpdateTimestampMilli == doneMilli
                case Err(e) => r == Err(e) && unchanged(this)
    {
      if nowMilli - lastUpdateTimestampMilli < UpdateIntervalMilli {
        return Ok(accountBoosts);
      }
      var offset := 0;
      ghost var k: nat := 0;
      ghost var acc: seq<Row> := [];
      var ret: History := map[];
      assert Prepend(acc, ReadPages(apiKeySet, source, k, bound)) == ReadPages(apiKeySet, source, 0, bound) by {
        if ReadPages(apiKeySet, source, 0, bound).Ok? {
          assert [] + ReadPages(apiKeySet, source, 0, bound).value == ReadPages(apiKeySet, source, 0, bound).value;
        }
      }
      while true
        invariant offset == k * PageLimit && k <= bound
        invariant ret == Group(acc)
        invariant ReadPages(apiKeySet, source, 0, bound) == Prepend(acc, ReadPages(apiKeySet, source, k, bound))
        invariant unchanged(this)
        decreases bound - k
      {
        if !apiKeySet {
          return Err("api key not set");
        }
        var resp := source(offset);
        assert resp == Page(source, k);
        if resp.NoResult? {
          return Err("empty resp");
        }
        if resp.rows.None? {
          return Err("rows is not iterable");
        }
        var rows := resp.rows.value;
        ret := PushAll(ret, acc, rows);
        offset := offset + PageLimit;
        if |rows| < PageLimit {
          acc := acc + rows;
          break;
        }
        ReadPagesFull(apiKeySet, source, k, bound, acc);
        acc := acc + rows;
        k := k + 1;
      }
      GroupWellFormed(acc);
      lastUpdateTimestampMilli := doneMilli;
      accountBoosts := ret;
      r := Ok(ret);
    }

    /** `getBoostsByTime`: refresh (single-flight, hence a plain call in the
        sequential runtime) and search the returned map. */
    method GetBoostsByTime(t: int, account: string, nowMilli: int, doneMilli: int, apiKeySet: bool,
                           source: int -> Response, ghost bound: nat)
      returns (r: Result<Boost>)
      requires Valid() && EndsBy(source, bound)
      modifies this
      ensures Valid()
      ensures nowMilli - old(lastUpdateTimestampMilli) < UpdateIntervalMilli ==> r.Ok? && unchanged(this)
      ensures nowMilli - old(lastUpdateTimestampMilli) >= UpdateIntervalMilli ==>
                match ReadPages(apiKeySet, source, 0, bound)
                case Ok(rows) => r.Ok? && accountBoosts == Group(rows) && lastUpdateTimestampMilli == doneMilli
                case Err(e) => r == Err(e) && unchanged(this)
      ensures r.Err? ==> unchanged(this)
      ensures r.Ok? ==> r.value.account == ToLower(account) && r.value.timestampMilli <= t
      ensures r.Ok? && ToLower(account) !in accountBoosts ==> r.value == DefaultBoost(ToLower(account), t)
      ensures r.Ok? && ToLower(account) in accountBoosts && SortedByTime(accountBoosts[ToLower(account)]) ==>
                r.value == BoostAt(accountBoosts, account, t)
    {
      var all := FetchBoosts(nowMilli, doneMilli, apiKeySet, source, bound);
      if all.Err? {
        return Err(all.message);
      }
      var b := BoostsByTime(all.value, t, account);
      r := Ok(b);
    }

    /** `getBoostMultiplier`: 1, doubled for dinero, doubled again for blueprint. */
    method GetBoostMultiplier(t: int, account: string, nowMilli: int, doneMilli: int, apiKeySet: bool,
                              source: int -> Response, ghost bound: nat)
      returns (r: Result<int>)
      requires Valid() && EndsBy(source, bound)
      modifies this
      ensures Valid()
      ensures nowMilli - old(lastUpdateTimestampMilli) < UpdateIntervalMilli ==> r.Ok? && unchanged(this)
      ensures nowMilli - old(lastUpdateTimestampMilli) >= UpdateIntervalMilli ==>
                match ReadPages(apiKeySet, source, 0, bound)
                case Ok(rows) => r.Ok? && accountBoosts == Group(rows) && lastUpdateTimestampMilli == doneMilli
                case Err(e) => r == Err(e) && unchanged(this)
      ensures r.Err? ==> unchanged(this)
      ensures r.Ok? ==> r.value in {1, 2, 4}
      ensures r.Ok? && ToLower(account) in accountBoosts && SortedByTime(accountBoosts[ToLower(account)]) ==>
                r.value == Multiplier(BoostAt(accountBoosts, account, t))
      ensures r.Ok? && ToLower(account) !in accountBoosts ==> r.value == 1
    {
      var boosts := GetBoostsByTime(t, account, nowMilli, doneMilli, apiKeySet, source, bound);
      if boosts.Err? {
        return Err(boosts.message);
      }
      var ret := 1;
      if boosts.value.dinero {
        ret := ret * 2;
      }
      if boosts.value.blueprint {
        ret := ret * 2;
      }
      r := Ok(ret);
    }
  }
}
