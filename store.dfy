/** The entity store behind `ctx.store`: entities keyed by their id.
    `upsert(list)` writes the entities in list order, so when two carry the
    same id the later one is what remains. */
module Store {

  /** The store after upserting `entries` (id, entity) one after the other. */
  function Upserted<S>(store: map<string, S>, entries: seq<(string, S)>): map<string, S>
    decreases |entries|
  {
    if entries == [] then store
    else
      var last := entries[|entries| - 1];
      Upserted(store, entries[..|entries| - 1])[last.0 := last.1]
  }

  function Keys<S>(entries: seq<(string, S)>): set<string> {
    set i | 0 <= i < |entries| :: entries[i].0
  }

  /** Entry `i` is the last one written under its id. */
  predicate LastFor<S>(entries: seq<(string, S)>, i: int)
    requires 0 <= i < |entries|
  {
    forall j :: i < j < |entries| ==> entries[j].0 != entries[i].0
  }

  /** Upsert adds exactly the ids written. */
  lemma {:induction false} UpsertedKeys<S>(store: map<string, S>, entries: seq<(string, S)>)
    ensures forall k :: k in Upserted(store, entries) <==> k in store || k in Keys(entries)
    decreases |entries|
  {
    if entries != [] {
      var n := |entries| - 1;
      UpsertedKeys(store, entries[..n]);
      assert forall i :: 0 <= i < n ==> entries[i] == entries[..n][i];
      assert Keys(entries) == Keys(entries[..n]) + {entries[n].0};
    }
  }

  /** Every entity whose id is not written is left as it was. */
  lemma {:induction false} UpsertedUntouched<S>(store: map<string, S>, entries: seq<(string, S)>, k: string)
    requires k in store && k !in Keys(entries)
    ensures k in Upserted(store, entries) && Upserted(store, entries)[k] == store[k]
    decreases |entries|
  {
    if entries != [] {
      var n := |entries| - 1;
      assert forall i :: 0 <= i < n ==> entries[..n][i] == entries[i];
      assert entries[n].0 in Keys(entries);
      UpsertedUntouched(store, entries[..n], k);
    }
  }

  /** The last entity written under an id is what the store then holds. */
  lemma {:induction false} UpsertedLast<S>(store: map<string, S>, entries: seq<(string, S)>, i: int)
    requires 0 <= i < |entries| && LastFor(entries, i)
    ensures entries[i].0 in Upserted(store, entries)
    ensures Upserted(store, entries)[entries[i].0] == entries[i].1
    decreases |entries|
  {
    var n := |entries| - 1;
    if i < n {
      assert entries[..n][i] == entries[i];
      assert LastFor(entries[..n], i);
      UpsertedLast(store, entries[..n], i);
    }
  }

  /** When entities written under the same id agree (the same account
      processed twice in one event), each entry written is what is stored. */
  lemma UpsertedConsistent<S>(store: map<string, S>, entries: seq<(string, S)>, i: int)
    requires 0 <= i < |entries|
    requires forall j :: 0 <= j < |entries| && entries[j].0 == entries[i].0 ==> entries[j].1 == entries[i].1
    ensures entries[i].0 in Upserted(store, entries)
    ensures Upserted(store, entries)[entries[i].0] == entries[i].1
  {
    var k := i;
    while k + 1 < |entries| && exists j :: k < j < |entries| && entries[j].0 == entries[i].0
      invariant i <= k < |entries| && entries[k].0 == entries[i].0
      decreases |entries| - k
    {
      var j :| k < j < |entries| && entries[j].0 == entries[i].0;
      k := j;
    }
    UpsertedLast(store, entries, k);
  }

  /** The entries `(keys[i], vals[i])`, in order. */
  function Zip<S>(keys: seq<string>, vals: seq<S>): (es: seq<(string, S)>)
    requires |keys| == |vals|
    ensures |es| == |keys| && forall i :: 0 <= i < |keys| ==> es[i] == (keys[i], vals[i])
  {
    seq(|keys|, i requires 0 <= i < |keys| => (keys[i], vals[i]))
  }

  /** Entities listed under the same id are the same entity. */
  ghost predicate Consistent<S>(keys: seq<string>, vals: seq<S>)
    requires |keys| == |vals|
  {
    forall i, j :: 0 <= i < |keys| && 0 <= j < |keys| && keys[i] == keys[j] ==> vals[i] == vals[j]
  }

  /** Upserting a consistent list: the store gains exactly the listed ids,
      each holding its listed entity, and keeps every other entity. */
  lemma UpsertedAll<S>(store: map<string, S>, keys: seq<string>, vals: seq<S>)
    requires |keys| == |vals| && Consistent(keys, vals)
    ensures forall k :: k in Upserted(store, Zip(keys, vals)) <==> k in store || k in keys
    ensures forall k :: k in store && k !in keys ==> Upserted(store, Zip(keys, vals))[k] == store[k]
    ensures forall i :: 0 <= i < |keys| ==> Upserted(store, Zip(keys, vals))[keys[i]] == vals[i]
  {
    var es := Zip(keys, vals);
    UpsertedKeys(store, es);
    assert forall k :: k in Keys(es) <==> k in keys by {
      forall k | k in keys ensures k in Keys(es) {
        var i :| 0 <= i < |keys| && keys[i] == k;
        assert es[i].0 == k;
      }
    }
    forall k | k in store && k !in keys
      ensures Upserted(store, es)[k] == store[k]
    {
      UpsertedUntouched(store, es, k);
    }
    forall i | 0 <= i < |keys|
      ensures Upserted(store, es)[keys[i]] == vals[i]
    {
      UpsertedConsistent(store, es, i);
    }
  }
}
