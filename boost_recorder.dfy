/** The boost-flag recorder: per-account snapshots of three boolean flags,
    each flipped by Transfer events of one source (dinero: apxETH/pxETH
    balances; blueprint: NFT balance; hyperliquid: a positive USDC transfer to
    the bridge). `updateBoost` changes one field and reports the snapshot only
    when the field actually changed; handlers upsert only the changed ones. */
module BoostRecorder {
  import opened Common

  datatype Field = Dinero | Blueprint | Hyperliquid

  /** A stored boost snapshot. A record created from the default has no
      `hyperliquid` value at all (None). */
  datatype BoostSnapshot = BoostSnapshot(id: string, dinero: bool, blueprint: bool, hyperliquid: Option<bool>)

  /** The "boosts" audit event. */
  datatype BoostsEvent = BoostsEvent(account: string, dinero: bool, blueprint: bool)

  /** The stored snapshot of `account`, or the default `{id, dinero: false, blueprint: false}`. */
  function Current(store: map<string, BoostSnapshot>, account: string): BoostSnapshot {
    if account in store then store[account] else BoostSnapshot(account, false, false, None)
  }

  /** `snapshot[field]`; an absent hyperliquid reads as undefined (None). */
  function FieldOf(s: BoostSnapshot, field: Field): Option<bool> {
    match field
    case Dinero => Some(s.dinero)
    case Blueprint => Some(s.blueprint)
    case Hyperliquid => s.hyperliquid
  }

  /** `snapshot[field] = value`. */
  function SetField(s: BoostSnapshot, field: Field, value: bool): BoostSnapshot {
    match field
    case Dinero => s.(dinero := value)
    case Blueprint => s.(blueprint := value)
    case Hyperliquid => s.(hyperliquid := Some(value))
  }

  /** Everything but `field` agrees between `s` and `t`. */
  predicate OthersKept(s: BoostSnapshot, t: BoostSnapshot, field: Field) {
    && s.id == t.id
    && (field != Dinero ==> s.dinero == t.dinero)
    && (field != Blueprint ==> s.blueprint == t.blueprint)
    && (field != Hyperliquid ==> s.hyperliquid == t.hyperliquid)
  }

  /** What `updateBoost` returns: the snapshot with `field` set to `value` if
      that changed it (`snapshot[field] != value`), else undefined. */
  function Updated(store: map<string, BoostSnapshot>, account: string, field: Field, value: bool): (r: Option<BoostSnapshot>)
    ensures r.Some? <==> FieldOf(Current(store, account), field) != Some(value)
    ensures r.Some? ==> FieldOf(r.value, field) == Some(value)
    ensures r.Some? ==> OthersKept(r.value, Current(store, account), field)
  {
    var snapshot := Current(store, account);
    if FieldOf(snapshot, field) != Some(value) then Some(SetField(snapshot, field, value)) else None
  }

  /** Persisting a reported change and repeating the same update reports
      nothing: the update is idempotent. */
  lemma UpdateIdempotent(store: map<string, BoostSnapshot>, account: string, field: Field, value: bool)
    requires Updated(store, account, field, value).Some?
    requires Updated(store, account, field, value).value.id == account
    ensures Updated(store[account := Updated(store, account, field, value).value], account, field, value) == None
  {
  }

  /** The default record has no hyperliquid value, so the first hyperliquid
      update of an unknown account always counts as a change, whatever the value. */
  lemma FirstHyperliquidUpdateChanges(store: map<string, BoostSnapshot>, account: string, value: bool)
    requires account !in store
    ensures Updated(store, account, Hyperliquid, value).Some?
  {
  }

  /** `filterSnapshots`: drop the undefined entries, keep the order. */
  function FilterSnapshots(xs: seq<Option<BoostSnapshot>>): (r: seq<BoostSnapshot>)
    ensures forall s :: s in r <==> Some(s) in xs
    ensures |r| <= |xs|
  {
    if xs == [] then []
    else (if xs[0].Some? then [xs[0].value] else []) + FilterSnapshots(xs[1..])
  }

  /** Filtering distributes over concatenation, which is to say it keeps the
      relative order of the surviving snapshots. */
  lemma {:induction false} FilterSnapshotsAppend(xs: seq<Option<BoostSnapshot>>, ys: seq<Option<BoostSnapshot>>)
    ensures FilterSnapshots(xs + ys) == FilterSnapshots(xs) + FilterSnapshots(ys)
  {
    if xs == [] {
      assert xs + ys == ys;
    } else {
      assert (xs + ys)[0] == xs[0];
      assert (xs + ys)[1..] == xs[1..] + ys;
      FilterSnapshotsAppend(xs[1..], ys);
    }
  }

  /** With no undefined entry, nothing is dropped. */
  lemma {:induction false} FilterSnapshotsAllDefined(xs: seq<Option<BoostSnapshot>>)
    requires forall i :: 0 <= i < |xs| ==> xs[i].Some?
    ensures |FilterSnapshots(xs)| == |xs|
  {
    if xs != [] {
      FilterSnapshotsAllDefined(xs[1..]);
    }
  }

  /** The updates of every party, computed against the same store. */
  function Updates(store: map<string, BoostSnapshot>, accounts: seq<string>, field: Field, flag: string -> bool): (r: seq<Option<BoostSnapshot>>)
    ensures |r| == |accounts|
  {
    seq(|accounts|, i requires 0 <= i < |accounts| => Updated(store, accounts[i], field, flag(accounts[i])))
  }

  /** One more party's update is one more entry. */
  lemma UpdatesSnoc(store: map<string, BoostSnapshot>, accounts: seq<string>, i: nat, field: Field, flag: string -> bool)
    requires i < |accounts|
    ensures Updates(store, accounts[..i + 1], field, flag)
            == Updates(store, accounts[..i], field, flag) + [Updated(store, accounts[i], field, flag(accounts[i]))]
  {
  }

  function EventsOf(snapshots: seq<BoostSnapshot>): seq<BoostsEvent> {
    seq(|snapshots|, i requires 0 <= i < |snapshots| => BoostsEvent(snapshots[i].id, snapshots[i].dinero, snapshots[i].blueprint))
  }

  lemma EventsOfAppend(xs: seq<BoostSnapshot>, ys: seq<BoostSnapshot>)
    ensures EventsOf(xs + ys) == EventsOf(xs) + EventsOf(ys)
  {
  }

  /** Every snapshot the handlers upsert is the party's current record with
      `field` set to its rule value; hence two of them with one id are equal. */
  lemma ChangedAreTargets(store: map<string, BoostSnapshot>, accounts: seq<string>, field: Field, flag: string -> bool)
    requires forall a :: a in store ==> store[a].id == a
    ensures forall s :: s in FilterSnapshots(Updates(store, accounts, field, flag)) ==>
              s.id in accounts && s == SetField(Current(store, s.id), field, flag(s.id))
    ensures forall i, j :: 0 <= i < |FilterSnapshots(Updates(store, accounts, field, flag))| &&
                           0 <= j < |FilterSnapshots(Updates(store, accounts, field, flag))| &&
                           FilterSnapshots(Updates(store, accounts, field, flag))[i].id ==
                           FilterSnapshots(Updates(store, accounts, field, flag))[j].id ==>
              FilterSnapshots(Updates(store, accounts, field, flag))[i] ==
              FilterSnapshots(Updates(store, accounts, field, flag))[j]
  {
    var results := Updates(store, accounts, field, flag);
    var changed := FilterSnapshots(results);
    forall s | s in changed
      ensures s.id in accounts && s == SetField(Current(store, s.id), field, flag(s.id))
    {
      var k :| 0 <= k < |results| && results[k] == Some(s);
    }
    forall i, j | 0 <= i < |changed| && 0 <= j < |changed| && changed[i].id == changed[j].id
      ensures changed[i] == changed[j]
    {
      assert changed[i] in changed && changed[j] in changed;
    }
  }

  /** `store` is `store0` with every snapshot of `snaps` written under its id. */
  ghost predicate UpsertedFrom(store0: map<string, BoostSnapshot>, store: map<string, BoostSnapshot>, snaps: seq<BoostSnapshot>) {
    && (forall s :: s in snaps ==> s.id in store && store[s.id] == s)
    && (forall a :: (forall s :: s in snaps ==> s.id != a) ==>
          (a in store <==> a in store0) && (a in store ==> store[a] == store0[a]))
  }

  /** After upserting the changed snapshots, each party holds its rule value in
      `field` with its other fields kept, and every other account is untouched. */
  lemma PartiesAfterUpsert(store0: map<string, BoostSnapshot>, store: map<string, BoostSnapshot>,
                           accounts: seq<string>, field: Field, flag: string -> bool)
    requires forall a :: a in store0 ==> store0[a].id == a
    requires UpsertedFrom(store0, store, FilterSnapshots(Updates(store0, accounts, field, flag)))
    ensures forall a :: a in accounts ==> FieldOf(Current(store, a), field) == Some(flag(a))
    ensures forall a :: a in accounts ==> OthersKept(Current(store, a), Current(store0, a), field)
    ensures forall a :: a !in accounts ==> Current(store, a) == Current(store0, a) && (a in store <==> a in store0)
  {
    ChangedAreTargets(store0, accounts, field, flag);
    forall a | a in accounts
      ensures FieldOf(Current(store, a), field) == Some(flag(a))
      ensures OthersKept(Current(store, a), Current(store0, a), field)
    {
      PartyAfterUpsert(store0, store, accounts, field, flag, a);
    }
  }

  /** One party after the upsert: its rule value in `field`, the rest kept. */
  lemma PartyAfterUpsert(store0: map<string, BoostSnapshot>, store: map<string, BoostSnapshot>,
                         accounts: seq<string>, field: Field, flag: string -> bool, a: string)
    requires forall a :: a in store0 ==> store0[a].id == a
    requires forall s :: s in FilterSnapshots(Updates(store0, accounts, field, flag)) ==>
               s.id in accounts && s == SetField(Current(store0, s.id), field, flag(s.id))
    requires UpsertedFrom(store0, store, FilterSnapshots(Updates(store0, accounts, field, flag)))
    requires a in accounts
    ensures FieldOf(Current(store, a), field) == Some(flag(a))
    ensures OthersKept(Current(store, a), Current(store0, a), field)
  {
    var u := Updated(store0, a, field, flag(a));
    PartyStored(store0, store, accounts, field, flag, a);
    if u.None? {
      assert Current(store, a) == Current(store0, a);
    }
  }

  /** A party's record after the upsert is its reported update, or the
      record it had when nothing was reported. */
  lemma PartyStored(store0: map<string, BoostSnapshot>, store: map<string, BoostSnapshot>,
                    accounts: seq<string>, field: Field, flag: string -> bool, a: string)
    requires forall a :: a in store0 ==> store0[a].id == a
    requires forall s :: s in FilterSnapshots(Updates(store0, accounts, field, flag)) ==>
               s.id in accounts && s == SetField(Current(store0, s.id), field, flag(s.id))
    requires UpsertedFrom(store0, store, FilterSnapshots(Updates(store0, accounts, field, flag)))
    requires a in accounts
    ensures Current(store, a) == if Updated(store0, a, field, flag(a)).Some? then Updated(store0, a, field, flag(a)).value
                                 else Current(store0, a)
  {
    var results := Updates(store0, accounts, field, flag);
    var changed := FilterSnapshots(results);
    var k :| 0 <= k < |accounts| && accounts[k] == a;
    var u := Updated(store0, a, field, flag(a));
    assert results[k] == u;
    if u.Some? {
      assert Some(u.value) in results;
      assert u.value in changed && u.value.id == a;
    } else {
      assert forall s :: s in changed ==> s.id != a;
    }
  }

  /** Only changed snapshots are written: a party whose update reported
      nothing keeps its stored record, and stays absent if it had none. */
  lemma UnchangedPartyKept(store0: map<string, BoostSnapshot>, store: map<string, BoostSnapshot>,
                           accounts: seq<string>, field: Field, flag: string -> bool, a: string)
    requires forall a :: a in store0 ==> store0[a].id == a
    requires UpsertedFrom(store0, store, FilterSnapshots(Updates(store0, accounts, field, flag)))
    requires Updated(store0, a, field, flag(a)).None?
    ensures a in store <==> a in store0
    ensures a in store ==> store[a] == store0[a]
  {
    var results := Updates(store0, accounts, field, flag);
    forall s | s in FilterSnapshots(results)
      ensures s.id != a
    {
      var k :| 0 <= k < |results| && results[k] == Some(s);
      var b := accounts[k];
      assert results[k] == Updated(store0, b, field, flag(b));
      assert Current(store0, b).id == b;
    }
  }

  /** The boost-flag store and the emitted "boosts" events. */
  class Recorder {
    var store: map<string, BoostSnapshot>
    var events: seq<BoostsEvent>

    ghost predicate Valid()
      reads this
    {
      forall a :: a in store ==> store[a].id == a
    }

    constructor ()
      ensures Valid() && store == map[] && events == []
    {
      store := map[];
      events := [];
    }

    /** `updateBoost`: load (or default) the snapshot, and if `field` differs
        from `value`, set it, emit the current dinero/blueprint and return it. */
    method UpdateBoost(account: string, field: Field, value: bool) returns (r: Option<BoostSnapshot>)
      requires Valid()
      modifies this`events
      ensures r == Updated(store, account, field, value)
      ensures r.Some? ==> r.value.id == account
      ensures events == old(events) + (if r.Some? then [BoostsEvent(account, r.value.dinero, r.value.blueprint)] else [])
    {
      var snapshot := Current(store, account);
      if FieldOf(snapshot, field) != Some(value) {
        snapshot := SetField(snapshot, field, value);
        events := events + [BoostsEvent(account, snapshot.dinero, snapshot.blueprint)];
        return Some(snapshot);
      }
      return None;
    }

    /** Run `updateBoost` for every party against the current store, in order. */
    method ComputeUpdates(accounts: seq<string>, field: Field, flag: string -> bool) returns (results: seq<Option<BoostSnapshot>>)
      requires Valid()
      modifies this`events
      ensures results == Updates(store, accounts, field, flag)
      ensures events == old(events) + EventsOf(FilterSnapshots(results))
    {
      results := [];
      var i := 0;
      while i < |accounts|
        invariant 0 <= i <= |accounts|
        invariant results == Updates(store, accounts[..i], field, flag)
        invariant events == old(events) + EventsOf(FilterSnapshots(results))
      {
        var r := UpdateBoost(accounts[i], field, flag(accounts[i]));
        UpdatesSnoc(store, accounts, i, field, flag);
        FilterSnapshotsAppend(results, [r]);
        assert FilterSnapshots([r]) == if r.Some? then [r.value] else [];
        EventsOfAppend(FilterSnapshots(results), FilterSnapshots([r]));
        AppendAfter(old(events), EventsOf(FilterSnapshots(results)), EventsOf(FilterSnapshots([r])));
        results := results + [r];
        i := i + 1;
      }
      assert accounts[..i] == accounts;
    }

    /** `store.upsert(snapshots)`: write every snapshot under its id. */
    method UpsertAll(snapshots: seq<BoostSnapshot>)
      requires Valid()
      requires forall i, j :: 0 <= i < |snapshots| && 0 <= j < |snapshots| && snapshots[i].id == snapshots[j].id ==> snapshots[i] == snapshots[j]
      modifies this`store
      ensures Valid()
      ensures UpsertedFrom(old(store), store, snapshots)
    {
      var j := 0;
      while j < |snapshots|
        invariant 0 <= j <= |snapshots|
        invariant Valid()
        invariant forall i :: 0 <= i < j ==> snapshots[i].id in store && store[snapshots[i].id] == snapshots[i]
        invariant forall a :: (forall i :: 0 <= i < j ==> snapshots[i].id != a) ==>
                    (a in store <==> a in old(store)) && (a in store ==> store[a] == old(store)[a])
      {
        store := store[snapshots[j].id := snapshots[j]];
        j := j + 1;
      }
    }

    /** The shared shape of the three Transfer handlers: update `field` of
        every party to its rule value against the current store, then upsert
        the changed snapshots. Afterwards each party's field equals its rule
        value, its other fields are as before, and no other account changed. */
    method ApplyToParties(accounts: seq<string>, field: Field, flag: string -> bool)
      requires Valid()
      modifies this
      ensures Valid()
      ensures events == old(events) + EventsOf(FilterSnapshots(Updates(old(store), accounts, field, flag)))
      ensures forall a :: a in accounts ==> FieldOf(Current(store, a), field) == Some(flag(a))
      ensures forall a :: a in accounts ==> OthersKept(Current(store, a), Current(old(store), a), field)
      ensures forall a :: a !in accounts ==> Current(store, a) == Current(old(store), a) && (a in store <==> a in old(store))
      ensures UpsertedFrom(old(store), store, FilterSnapshots(Updates(old(store), accounts, field, flag)))
    {
      ghost var store0 := store;
      var results := ComputeUpdates(accounts, field, flag);
      ChangedAreTargets(store0, accounts, field, flag);
      UpsertAll(FilterSnapshots(results));
      PartiesAfterUpsert(store0, store, accounts, field, flag);
    }

    /** The apxETH and the pxETH Transfer handler (the two bindings run the
        same code): dinero := apxETH balance > 0 || pxETH balance > 0 for
        each non-null party. */
    method OnDineroTransfer(from: string, to: string, apxEthBalance: string -> int, pxEthBalance: string -> int)
      requires Valid()
      modifies this
      ensures Valid()
      ensures forall a :: a in NonNull([from, to]) ==>
                Current(store, a).dinero == (apxEthBalance(a) > 0 || pxEthBalance(a) > 0)
      ensures forall a :: a in NonNull([from, to]) ==> OthersKept(Current(store, a), Current(old(store), a), Dinero)
      ensures forall a :: a !in NonNull([from, to]) ==> Current(store, a) == Current(old(store), a) && (a in store <==> a in old(store))
      ensures UpsertedFrom(old(store), store, FilterSnapshots(Updates(old(store), NonNull([from, to]), Dinero,
                                                                      a => apxEthBalance(a) > 0 || pxEthBalance(a) > 0)))
      ensures events == old(events) + EventsOf(FilterSnapshots(Updates(old(store), NonNull([from, to]), Dinero,
                                                                       a => apxEthBalance(a) > 0 || pxEthBalance(a) > 0)))
    {
      ApplyToParties(NonNull([from, to]), Dinero, a => apxEthBalance(a) > 0 || pxEthBalance(a) > 0);
    }

    /** The hyperliquid handler, bound to Transfers whose `to` is the bridge:
        ignore non-positive values, otherwise flag both non-null parties
        (the bridge included) as hyperliquid. */
    method OnHyperliquidTransfer(from: string, to: string, value: int, bridge: string)
      requires Valid()
      modifies this
      ensures Valid()
      ensures to != bridge || value <= 0 ==> store == old(store) && events == old(events)
      ensures to == bridge && value > 0 ==>
                forall a :: a in NonNull([from, to]) ==> Current(store, a).hyperliquid == Some(true)
      ensures forall a :: Current(old(store), a).hyperliquid == Some(true) ==> Current(store, a).hyperliquid == Some(true)
      ensures forall a :: a !in NonNull([from, to]) ==> Current(store, a) == Current(old(store), a) && (a in store <==> a in old(store))
      ensures to == bridge && value > 0 ==>
                UpsertedFrom(old(store), store, FilterSnapshots(Updates(old(store), NonNull([from, to]), Hyperliquid, _ => true)))
      ensures to == bridge && value > 0 ==>
                events == old(events) + EventsOf(FilterSnapshots(Updates(old(store), NonNull([from, to]), Hyperliquid, _ => true)))
    {
      if to != bridge {
        return;
      }
      if value <= 0 {
        return;
      }
      ApplyToParties(NonNull([from, to]), Hyperliquid, _ => true);
    }

    /** The blueprint NFT Transfer handler: blueprint := balance > 0 for each
        non-null party, each judged on its own balance. */
    method OnBlueprintTransfer(from: string, to: string, balance: string -> int)
      requires Valid()
      modifies this
      ensures Valid()
      ensures forall a :: a in NonNull([from, to]) ==> Current(store, a).blueprint == (balance(a) > 0)
      ensures forall a :: a in NonNull([from, to]) ==> OthersKept(Current(store, a), Current(old(store), a), Blueprint)
      ensures forall a :: a !in NonNull([from, to]) ==> Current(store, a) == Current(old(store), a) && (a in store <==> a in old(store))
      ensures UpsertedFrom(old(store), store, FilterSnapshots(Updates(old(store), NonNull([from, to]), Blueprint, a => balance(a) > 0)))
      ensures events == old(events) + EventsOf(FilterSnapshots(Updates(old(store), NonNull([from, to]), Blueprint, a => balance(a) > 0)))
    {
      ApplyToParties(NonNull([from, to]), Blueprint, a => balance(a) > 0);
    }
  }
}
