/** SimpleStore (src/SimpleStore.ts): an in-memory key-value store over one
    mutable object. Object.keys lists string keys in the order they were
    first added, so the model keeps that order beside the map. */
module Store {
  import opened Common

  datatype Entry = Entry(key: string, value: string)

  /** `s` without `key`, order kept. */
  function Without(s: seq<string>, key: string): (r: seq<string>)
    ensures forall k :: k in r <==> k in s && k != key
    ensures key !in s ==> r == s
    ensures |r| <= |s|
  {
    if s == [] then []
    else if s[0] == key then Without(s[1..], key)
    else [s[0]] + Without(s[1..], key)
  }

  predicate Distinct(s: seq<string>) {
    forall i, j :: 0 <= i < j < |s| ==> s[i] != s[j]
  }

  /** A sequence that lists no key twice keeps that property when a key is
      removed. */
  lemma {:induction false} WithoutKeepsDistinct(s: seq<string>, key: string)
    requires Distinct(s)
    ensures Distinct(Without(s, key))
  {
    if s != [] {
      WithoutKeepsDistinct(s[1..], key);
      var rest := Without(s[1..], key);
      if s[0] != key {
        assert s[0] !in s[1..];
        assert s[0] !in rest;
        var r := [s[0]] + rest;
        assert Without(s, key) == r;
        forall i, j | 0 <= i < j < |r| ensures r[i] != r[j] {
          assert r[j] == rest[j - 1] && rest[j - 1] in rest;
          if i > 0 {
            assert r[i] == rest[i - 1];
          }
        }
      }
    }
  }

  /** `{ key, value }` for each key of `order`, in that order. */
  function EntriesOf(order: seq<string>, store: map<string, string>): (entries: seq<Entry>)
    requires forall k :: k in order ==> k in store
    ensures |entries| == |order|
    ensures forall i :: 0 <= i < |order| ==> entries[i] == Entry(order[i], store[order[i]])
  {
    if order == [] then [] else [Entry(order[0], store[order[0]])] + EntriesOf(order[1..], store)
  }

  /** `store[key] || null`: the stored value, absent for a missing key and
      for "", which is falsy. */
  function GetFrom(store: map<string, string>, key: string): (value: Option<string>)
    ensures value.Some? <==> key in store && store[key] != ""
    ensures value.Some? ==> value.value == store[key]
  {
    if key in store && store[key] != "" then Some(store[key]) else None
  }

  class SimpleStore {
    /** `_store`: the stored values by key. */
    var store: map<string, string>
    /** The keys of `store`, in the order they were first set. */
    var order: seq<string>

    ghost predicate Valid()
      reads this
    {
      && Distinct(order)
      && (forall k :: k in order <==> k in store)
    }

    constructor ()
      ensures Valid() && store == map[] && order == []
    {
      store := map[];
      order := [];
    }

    /** `this._store[key] || null`: None both for a key never set (or
        deleted) and for a key set to "". */
    function Get(key: string): (value: Option<string>)
      reads this
      ensures value.Some? <==> key in store && store[key] != ""
      ensures value.Some? ==> value.value == store[key]
    {
      GetFrom(store, key)
    }

    /** One `{ key, value }` per stored key, in key order, including keys whose
        value is "" and which Get reports as absent. */
    function GetAll(): (entries: seq<Entry>)
      reads this
      requires Valid()
      ensures |entries| == |store| == |order|
      ensures forall i :: 0 <= i < |entries| ==> entries[i].key == order[i]
      ensures forall i :: 0 <= i < |entries| ==> entries[i].key in store && entries[i].value == store[entries[i].key]
      ensures forall k :: k in store ==> exists i :: 0 <= i < |entries| && entries[i].key == k
      ensures forall i, j :: 0 <= i < j < |entries| ==> entries[i].key != entries[j].key
    {
      DistinctKeysCount(order, store);
      EntriesOf(order, store)
    }

    method Set(key: string, value: string)
      requires Valid()
      modifies this
      ensures Valid()
      ensures store == old(store)[key := value]
      ensures order == if key in old(store) then old(order) else old(order) + [key]
      ensures Get(key) == if value == "" then None else Some(value)
      ensures forall k :: k != key ==> Get(k) == old(Get(k))
    {
      if key !in store {
        assert key !in order;
        order := order + [key];
        assert forall i :: 0 <= i < |order| - 1 ==> order[i] == old(order)[i];
      }
      store := store[key := value];
    }

    method Delete(key: string)
      requires Valid()
      modifies this
      ensures Valid()
      ensures store == old(store) - {key}
      ensures order == Without(old(order), key)
      ensures Get(key) == None
      ensures forall k :: k != key ==> Get(k) == old(Get(k))
      ensures key !in old(store) ==> store == old(store) && order == old(order)
    {
      WithoutKeepsDistinct(order, key);
      order := Without(order, key);
      store := store - {key};
    }
  }

  /** A list of distinct keys that are exactly the keys of a map is as long
      as the map. */
  lemma {:induction false} DistinctKeysCount(order: seq<string>, store: map<string, string>)
    requires Distinct(order)
    requires forall k :: k in order <==> k in store
    ensures |order| == |store|
  {
    if order == [] {
      assert store.Keys == {};
    } else {
      var rest := store - {order[0]};
      assert order[0] !in order[1..];
      forall k ensures k in order[1..] <==> k in rest {
        if k in order[1..] {
          var i :| 0 <= i < |order[1..]| && order[1..][i] == k;
          assert order[i + 1] == k;
        }
      }
      DistinctKeysCount(order[1..], rest);
    }
  }
}
