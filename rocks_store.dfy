/**
 * The embedded RocksDB key-value store, as the mock server uses it: point
 * get, put and delete, an iterator that seeks to a key and walks forward
 * in key order, and a write batch of deletes. Keys are strings; values
 * are the records written, since serialisation is taken as the identity
 * (`Stored`). A record reads back only at the type it was written with.
 */
module RocksStore {
  import opened JavaLang
  import opened Values
  import opened Records
  import opened KeyOrder

  /** What a key holds: each record type the services write, or bytes that are not JSON. */
  datatype Stored =
    | FlowRec(flow: MockFlow)
    | MatchRec(matchResult: FlowMatchResult)
    | IdSet(idSet: set<string>)                 // a Set<UUID>
    | IdList(idList: seq<string>)               // a List<UUID> or List<String>
    | IdText(uuid: string)                      // a single UUID
    | GroupRec(group: MockGroup)
    | BrokerRec(broker: KafkaBroker)
    | VariableList(variables: seq<GlobalVariable>)
    | VariableRec(variable: GlobalVariable)
    | NodeRec(node: CollectionNode)
    | ObjectRec(obj: Value)                     // any other object written through the generic repository
    | Binary(size: nat)                         // bytes that do not parse as JSON

  // ------------------------------------------------ reading a record back

  function AsFlow(s: Stored): (r: Option<MockFlow>)
    ensures r.Some? <==> s.FlowRec?
  { if s.FlowRec? then Some(s.flow) else None }

  function AsMatch(s: Stored): (r: Option<FlowMatchResult>)
    ensures r.Some? <==> s.MatchRec?
  { if s.MatchRec? then Some(s.matchResult) else None }

  function AsIdSet(s: Stored): (r: Option<set<string>>)
    ensures r.Some? <==> s.IdSet?
  { if s.IdSet? then Some(s.idSet) else None }

  function AsIdList(s: Stored): (r: Option<seq<string>>)
    ensures r.Some? <==> s.IdList?
  { if s.IdList? then Some(s.idList) else None }

  function AsIdText(s: Stored): (r: Option<string>)
    ensures r.Some? <==> s.IdText?
  { if s.IdText? then Some(s.uuid) else None }

  function AsGroup(s: Stored): (r: Option<MockGroup>)
    ensures r.Some? <==> s.GroupRec?
  { if s.GroupRec? then Some(s.group) else None }

  function AsBroker(s: Stored): (r: Option<KafkaBroker>)
    ensures r.Some? <==> s.BrokerRec?
  { if s.BrokerRec? then Some(s.broker) else None }

  function AsVariableList(s: Stored): (r: Option<seq<GlobalVariable>>)
    ensures r.Some? <==> s.VariableList?
  { if s.VariableList? then Some(s.variables) else None }

  function AsVariable(s: Stored): (r: Option<GlobalVariable>)
    ensures r.Some? <==> s.VariableRec?
  { if s.VariableRec? then Some(s.variable) else None }

  function AsNode(s: Stored): (r: Option<CollectionNode>)
    ensures r.Some? <==> s.NodeRec?
  { if s.NodeRec? then Some(s.node) else None }

  /** A store update that may fail part way: the store as it was left, and the outcome. */
  datatype Effect<T> = Effect(kv: map<string, Stored>, result: Result<T>)

  /** The JSON tree `readTree` gives for stored bytes, or the text node for bytes that are not JSON. */
  datatype JsonNode = Tree(doc: Stored) | TextNode(text: string)

  // ------------------------------------------------------- the key order

  /** The keys of a map that start with p. */
  function PrefixedKeys(kv: map<string, Stored>, p: string): (ks: set<string>)
    ensures forall k | k in ks :: k in kv && StartsWith(k, p)
    ensures forall k | k in kv && StartsWith(k, p) :: k in ks
  {
    set k | k in kv && StartsWith(k, p)
  }

  /** The store after every key with prefix p is gone. */
  function WithoutPrefix(kv: map<string, Stored>, p: string): (r: map<string, Stored>)
    ensures forall k | k in r :: !StartsWith(k, p) && k in kv && r[k] == kv[k]
    ensures forall k | k in kv && !StartsWith(k, p) :: k in r
  {
    kv - PrefixedKeys(kv, p)
  }

  /** Two stores hold the same row, or none, at a key. */
  predicate SameAt(a: map<string, Stored>, b: map<string, Stored>, k: string) {
    (k in a <==> k in b) && (k in a ==> a[k] == b[k])
  }

  /** The members of a list of keys. */
  function Members(ks: seq<string>): (r: set<string>)
    ensures forall k :: k in r <==> k in ks
  {
    set k | k in ks
  }

  lemma MembersAppend(ks: seq<string>, k: string)
    ensures Members(ks + [k]) == Members(ks) + {k}
  {
  }

  /** A sorted list has no repeats, so it has as many members as elements. */
  lemma SortedCardinality(keys: seq<string>)
    requires Sorted(keys)
    ensures |Members(keys)| == |keys|
  {
    forall i, j | 0 <= i < j < |keys|
      ensures keys[i] != keys[j]
    {
      SortedDistinct(keys, i, j);
    }
    DistinctCardinality(keys);
  }

  /** A list without repeats has as many members as entries. */
  lemma {:induction false} DistinctCardinality(keys: seq<string>)
    requires NoDuplicates(keys)
    ensures |Members(keys)| == |keys|
    decreases |keys|
  {
    if keys != [] {
      var init := keys[..|keys| - 1];
      var last := keys[|keys| - 1];
      assert keys == init + [last];
      assert NoDuplicates(init) by {
        forall i, j | 0 <= i < j < |init| ensures init[i] != init[j] {
          assert init[i] == keys[i] && init[j] == keys[j];
        }
      }
      DistinctCardinality(init);
      assert last !in init by {
        forall j | 0 <= j < |init| ensures init[j] != last {
          assert init[j] == keys[j];
        }
      }
      MembersAppend(init, last);
    }
  }


  /**
   * The store. `keys` lists the keys of `kv` in ascending order, which is
   * the order a RocksIterator visits them in.
   */
  class RocksDb {
    var kv: map<string, Stored>
    var keys: seq<string>

    ghost predicate Valid()
      reads this
    {
      Sorted(keys) && (forall k :: k in kv <==> k in keys)
    }

    constructor ()
      ensures Valid() && kv == map[] && keys == []
    {
      kv := map[];
      keys := [];
    }

    /** RocksDB.get: the value, or null for an absent key. */
    function Get(k: string): (r: Option<Stored>)
      reads this
      ensures r.Some? <==> k in kv
      ensures r.Some? ==> r.value == kv[k]
    {
      if k in kv then Some(kv[k]) else None
    }

    /** RocksDB.put. */
    method Put(k: string, v: Stored)
      requires Valid()
      modifies this
      ensures Valid() && kv == old(kv)[k := v]
    {
      if k !in kv {
        assert k !in keys;
        var i := SeekIndex(keys, k);
        InsertKeepsSorted(keys, k);
        keys := keys[..i] + [k] + keys[i..];
        assert forall x :: x in keys <==> x in old(keys) || x == k by {
          assert old(keys) == old(keys)[..i] + old(keys)[i..];
        }
      }
      kv := kv[k := v];
    }

    /** RocksDB.delete: removing an absent key is not an error. */
    method Delete(k: string)
      requires Valid()
      modifies this
      ensures Valid() && kv == old(kv) - {k}
    {
      if k in kv {
        var i :| 0 <= i < |keys| && keys[i] == k;
        RemoveKeepsSorted(keys, i);
        var rest := keys[..i] + keys[i + 1..];
        assert forall x :: x in rest <==> x in keys && x != k by {
          assert keys == keys[..i] + [k] + keys[i + 1..];
          forall j | 0 <= j < |keys| && j != i ensures keys[j] != k {
            SortedDistinct(keys, i, j);
          }
        }
        keys := rest;
      }
      kv := kv - {k};
    }

    /** RocksDB.write of a batch holding only deletes: every listed key goes in one step. */
    method DeleteBatch(batch: seq<string>)
      requires Valid()
      modifies this
      ensures Valid() && kv == old(kv) - Members(batch)
    {
      var i := 0;
      while i < |batch|
        invariant 0 <= i <= |batch|
        invariant Valid() && kv == old(kv) - Members(batch[..i])
      {
        Delete(batch[i]);
        assert batch[..i + 1] == batch[..i] + [batch[i]];
        MembersAppend(batch[..i], batch[i]);
        i := i + 1;
      }
      assert batch[..i] == batch;
    }

    /** Where a seek to p leaves the iterator. */
    function Seek(p: string): (i: nat)
      reads this
      ensures i <= |keys|
    {
      SeekIndex(keys, p)
    }
  }

  /** The keys a seek-to-p scan visits, once the scan stops at the first key without the prefix. */
  lemma ScanVisitsPrefixedKeys(db: RocksDb, p: string)
    requires db.Valid()
    ensures var s := SeekIndex(db.keys, p);
      db.keys[s..PrefixRunEnd(db.keys, p, s)] == KeysWithPrefix(db.keys, p)
    ensures Members(KeysWithPrefix(db.keys, p)) == PrefixedKeys(db.kv, p)
    ensures |KeysWithPrefix(db.keys, p)| == |PrefixedKeys(db.kv, p)|
  {
    ScanIsKeysWithPrefix(db.keys, p);
    var s := SeekIndex(db.keys, p);
    var run := db.keys[s..PrefixRunEnd(db.keys, p, s)];
    SliceSorted(db.keys, s, PrefixRunEnd(db.keys, p, s));
    SortedCardinality(run);
    PrefixedMembers(db.kv, db.keys, p);
  }

  lemma PrefixedMembers(kv: map<string, Stored>, keys: seq<string>, p: string)
    requires forall k :: k in kv <==> k in keys
    ensures Members(KeysWithPrefix(keys, p)) == PrefixedKeys(kv, p)
  {
  }

  lemma SliceSorted(keys: seq<string>, s: nat, e: nat)
    requires Sorted(keys) && s <= e <= |keys|
    ensures Sorted(keys[s..e])
  {
    var run := keys[s..e];
    forall a, b | 0 <= a < b < |run| ensures Less(run[a], run[b]) {
      assert run[a] == keys[s + a] && run[b] == keys[s + b];
    }
  }
}
