/** The sharded storage engine: a fixed array of shards, each a map from key
    to value, where every key is routed to the shard at index
    `Hash32(key) mod shard count`. The shards' locks are not modelled: each
    operation is one atomic step.

    The pure part states what the shards mean: read as one map (`Union`),
    routed shards behave exactly like a single dictionary. The class
    `SharedMap` is the engine itself, updated in place. */
module Storage {
  import opened Bytes
  import Hasher

  /** A Go `string` key and a `[]byte` value, both as bytes. */
  type Key = seq<byte>
  type Value = seq<byte>

  /** The shard count used when the configuration asks for 0. */
  const DefaultShardCount: nat := 32

  /** One shard: its entries (the reader/writer lock is not modelled). */
  datatype Shard = Shard(data: map<Key, Value>)

  /** The shard index `getShard` routes `key` to among `count` shards. */
  function ShardIndex(key: Key, count: nat): (i: nat)
    requires 0 < count
    ensures i < count
  {
    Hasher.HashOf(key) as int % count
  }

  /** The routing invariant: every stored key sits in the shard it routes to. */
  ghost predicate Routed(s: seq<Shard>) {
    forall i, k :: 0 <= i < |s| && k in s[i].data ==> ShardIndex(k, |s|) == i
  }

  /** The shards read as one map: the union of their entries. */
  function Union(s: seq<Shard>): map<Key, Value> {
    if s == [] then map[] else Union(s[..|s| - 1]) + s[|s| - 1].data
  }

  /** `count` shards with no entries. */
  function EmptyShards(count: nat): (s: seq<Shard>)
    ensures |s| == count
  {
    seq(count, _ => Shard(map[]))
  }

  /** What `Get` returns: the entry of `key` in the shard it routes to. */
  function Lookup(s: seq<Shard>, key: Key): Option<Value>
    requires 0 < |s|
  {
    var data := s[ShardIndex(key, |s|)].data;
    if key in data then Some(data[key]) else None
  }

  /** The shards after `Set(key, value)`. */
  function Store(s: seq<Shard>, key: Key, value: Value): (r: seq<Shard>)
    requires 0 < |s|
    ensures |r| == |s|
    ensures Routed(s) ==> Routed(r)
  {
    var i := ShardIndex(key, |s|);
    s[i := Shard(s[i].data[key := value])]
  }

  /** The shards after `Remove(key)`. */
  function Delete(s: seq<Shard>, key: Key): (r: seq<Shard>)
    requires 0 < |s|
    ensures |r| == |s|
    ensures Routed(s) ==> Routed(r)
  {
    var i := ShardIndex(key, |s|);
    s[i := Shard(s[i].data - {key})]
  }

  /** A key held by exactly one shard is in the union, with that shard's value. */
  lemma {:induction false} UnionHolds(s: seq<Shard>, i: nat, k: Key)
    requires i < |s| && k in s[i].data
    requires forall j :: 0 <= j < |s| && j != i ==> k !in s[j].data
    ensures k in Union(s) && Union(s)[k] == s[i].data[k]
  {
    var last := |s| - 1;
    if i < last {
      UnionHolds(s[..last], i, k);
    }
  }

  /** A key held by no shard is not in the union. */
  lemma {:induction false} UnionLacks(s: seq<Shard>, k: Key)
    requires forall j :: 0 <= j < |s| ==> k !in s[j].data
    ensures k !in Union(s)
  {
    if s != [] {
      UnionLacks(s[..|s| - 1], k);
    }
  }

  /** Refinement: on routed shards, looking a key up in its own shard is
      looking it up in the union of all shards. */
  lemma LookupIsUnion(s: seq<Shard>, k: Key)
    requires 0 < |s| && Routed(s)
    ensures Lookup(s, k) == if k in Union(s) then Some(Union(s)[k]) else None
  {
    var i := ShardIndex(k, |s|);
    if k in s[i].data {
      UnionHolds(s, i, k);
    } else {
      UnionLacks(s, k);
    }
  }

  /** Refinement: `Set` updates the abstract map at `k` and nowhere else. */
  lemma StoreRefines(s: seq<Shard>, k: Key, v: Value)
    requires 0 < |s| && Routed(s)
    ensures Union(Store(s, k, v)) == Union(s)[k := v]
  {
    var r := Store(s, k, v);
    forall j
      ensures (j in Union(r)) == (j in Union(s)[k := v])
      ensures j in Union(r) ==> Union(r)[j] == Union(s)[k := v][j]
    {
      LookupIsUnion(r, j);
      LookupIsUnion(s, j);
    }
  }

  /** Refinement: `Remove` takes `k` out of the abstract map and nothing else. */
  lemma DeleteRefines(s: seq<Shard>, k: Key)
    requires 0 < |s| && Routed(s)
    ensures Union(Delete(s, k)) == Union(s) - {k}
  {
    var r := Delete(s, k);
    forall j
      ensures (j in Union(r)) == (j in Union(s) - {k})
      ensures j in Union(r) ==> Union(r)[j] == (Union(s) - {k})[j]
    {
      LookupIsUnion(r, j);
      LookupIsUnion(s, j);
    }
  }

  /** Freshly created shards hold no entry at all. */
  lemma {:induction false} EmptyShardsAreEmpty(count: nat)
    ensures Routed(EmptyShards(count))
    ensures Union(EmptyShards(count)) == map[]
  {
    if count > 0 {
      assert EmptyShards(count)[..count - 1] == EmptyShards(count - 1);
      EmptyShardsAreEmpty(count - 1);
    }
  }

  /** `Get` after `Set(k, v)` gives `v`; every other key reads as before. */
  lemma LookupAfterStore(s: seq<Shard>, k: Key, v: Value, j: Key)
    requires 0 < |s|
    ensures Lookup(Store(s, k, v), j) == if j == k then Some(v) else Lookup(s, j)
  {
  }

  /** `Get` after `Remove(k)` gives nothing; every other key reads as before. */
  lemma LookupAfterDelete(s: seq<Shard>, k: Key, j: Key)
    requires 0 < |s|
    ensures Lookup(Delete(s, k), j) == if j == k then None else Lookup(s, j)
  {
  }

  /** Removing an absent key leaves every shard as it was. */
  lemma DeleteAbsent(s: seq<Shard>, k: Key)
    requires 0 < |s| && Lookup(s, k) == None
    ensures Delete(s, k) == s
  {
    var i := ShardIndex(k, |s|);
    assert s[i].data - {k} == s[i].data;
  }

  /** Go's `SharedMap`: a fixed array of shards, never resized. */
  class SharedMap {
    const shards: array<Shard>

    /** Every stored key lives in the shard it routes to. */
    ghost predicate Valid()
      reads this, shards
    {
      0 < shards.Length && Routed(shards[..])
    }

    /** The single map the shards stand for. */
    ghost function Contents(): map<Key, Value>
      reads this, shards
    {
      Union(shards[..])
    }

    /** `NewSharedMap(size)`: `size` empty shards, or 32 when `size` is 0. */
    constructor (size: uint8)
      ensures Valid() && fresh(shards)
      ensures shards.Length == if size == 0 then DefaultShardCount else size as nat
      ensures shards[..] == EmptyShards(shards.Length)
      ensures Contents() == map[]
    {
      var count := if size == 0 then DefaultShardCount else size as nat;
      var a := new Shard[count];
      for i := 0 to count
        invariant forall j :: 0 <= j < i ==> a[j] == Shard(map[])
      {
        a[i] := Shard(map[]);
      }
      assert a[..] == EmptyShards(count);
      EmptyShardsAreEmpty(count);
      shards := a;
    }

    /** `getShard`: hash the key, reduce it modulo the shard count. */
    method GetShard(key: Key) returns (i: nat)
      requires 0 < shards.Length
      ensures i < shards.Length
      ensures i == ShardIndex(key, shards.Length)
    {
      var hashedKey := Hasher.Hash32(key);
      i := hashedKey as int % shards.Length;
    }

    /** `Get`: the value stored under `key`, or `None` (Go's `nil`). */
    method Get(key: Key) returns (value: Option<Value>)
      requires Valid()
      ensures value == Lookup(shards[..], key)
      ensures value == if key in Contents() then Some(Contents()[key]) else None
    {
      var i := GetShard(key);
      var data := shards[i].data;
      value := if key in data then Some(data[key]) else None;
      LookupIsUnion(shards[..], key);
    }

    /** `Set`: insert or overwrite the entry of `key` in its shard. */
    method Set(key: Key, value: Value)
      requires Valid()
      modifies shards
      ensures Valid()
      ensures shards[..] == Store(old(shards[..]), key, value)
      ensures Contents() == old(Contents())[key := value]
    {
      var i := GetShard(key);
      shards[i] := Shard(shards[i].data[key := value]);
      StoreRefines(old(shards[..]), key, value);
    }

    /** `Remove`: delete the entry of `key` from its shard, if any. */
    method Remove(key: Key)
      requires Valid()
      modifies shards
      ensures Valid()
      ensures shards[..] == Delete(old(shards[..]), key)
      ensures Contents() == old(Contents()) - {key}
      ensures key !in old(Contents()) ==> shards[..] == old(shards[..])
    {
      var i := GetShard(key);
      shards[i] := Shard(shards[i].data - {key});
      DeleteRefines(old(shards[..]), key);
      LookupIsUnion(old(shards[..]), key);
      if key !in old(Contents()) {
        DeleteAbsent(old(shards[..]), key);
      }
    }
  }

  /** A value stored under a key is read back unchanged. */
  method StoreThenRetrieve(key: Key, value: Value) returns (got: Option<Value>)
    ensures got == Some(value)
  {
    var sm := new SharedMap(8);
    sm.Set(key, value);
    got := sm.Get(key);
  }

  /** A key never stored reads as absent. */
  method RetrieveMissing(key: Key) returns (got: Option<Value>)
    ensures got == None
  {
    var sm := new SharedMap(8);
    got := sm.Get(key);
  }

  /** A removed key reads as absent. */
  method StoreRemoveThenRetrieve(key: Key, value: Value) returns (got: Option<Value>)
    ensures got == None
  {
    var sm := new SharedMap(8);
    sm.Set(key, value);
    sm.Remove(key);
    got := sm.Get(key);
  }
}
