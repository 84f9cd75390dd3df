/** CollectionRepository: collection tree nodes at `collection:<id>` through the generic repository. */
module CollectionRepository {
  import opened JavaLang
  import opened Records
  import opened RocksStore
  import opened KeyOrder
  import opened RocksDbRepository

  const COLLECTION_ID_KEY: string := "collection"

  class NodeRepository {
    const common: Repository

    constructor (common: Repository)
      ensures this.common == common
    {
      this.common := common;
    }

    method FindById(id: string) returns (r: Option<CollectionNode>)
      ensures r == Find(common.db.kv, BuildKey(COLLECTION_ID_KEY, id), AsNode)
    {
      r := common.FindByPrefixedKey(COLLECTION_ID_KEY, id, AsNode);
    }

    method Save(node: CollectionNode)
      requires common.db.Valid()
      modifies common.db
      ensures common.db.Valid()
      ensures common.db.kv == old(common.db.kv)[BuildKey(COLLECTION_ID_KEY, node.id) := NodeRec(node)]
    {
      common.SavePrefixed(COLLECTION_ID_KEY, node.id, NodeRec(node));
    }

    method FindAll() returns (r: Result<seq<CollectionNode>>)
      requires common.db.Valid()
      ensures r == DecodeAll(common.db.kv, KeysWithPrefix(common.db.keys, COLLECTION_ID_KEY), AsNode)
    {
      r := common.FindAll(COLLECTION_ID_KEY, AsNode);
    }

    method Delete(id: string)
      requires common.db.Valid()
      modifies common.db
      ensures common.db.Valid() && common.db.kv == old(common.db.kv) - {BuildKey(COLLECTION_ID_KEY, id)}
    {
      common.DeletePrefixed(COLLECTION_ID_KEY, id);
    }
  }

  /** The node as store after `save`: a later save of the same id replaces an earlier one, other ids keep theirs. */
  function Saved(kv: map<string, Stored>, node: CollectionNode): map<string, Stored> {
    kv[BuildKey(COLLECTION_ID_KEY, node.id) := NodeRec(node)]
  }

  /** `findById` after `save` gives the latest node saved under that id, and leaves other ids as they were. */
  lemma SaveThenFindById(kv: map<string, Stored>, first: CollectionNode, second: CollectionNode, other: string)
    requires first.id == second.id && other != second.id
    ensures Find(Saved(Saved(kv, first), second), BuildKey(COLLECTION_ID_KEY, second.id), AsNode) == Some(second)
    ensures Find(Saved(kv, second), BuildKey(COLLECTION_ID_KEY, other), AsNode) == Find(kv, BuildKey(COLLECTION_ID_KEY, other), AsNode)
  {
    if BuildKey(COLLECTION_ID_KEY, second.id) == BuildKey(COLLECTION_ID_KEY, other) {
      BuildKeyInjective(COLLECTION_ID_KEY, second.id, other);
    }
  }

  /** `delete` removes that node and no other key. */
  lemma DeleteRemovesOnlyNode(kv: map<string, Stored>, id: string, k: string)
    requires k in kv && k != BuildKey(COLLECTION_ID_KEY, id)
    ensures Find(kv - {BuildKey(COLLECTION_ID_KEY, id)}, BuildKey(COLLECTION_ID_KEY, id), AsNode).None?
    ensures k in kv - {BuildKey(COLLECTION_ID_KEY, id)} && (kv - {BuildKey(COLLECTION_ID_KEY, id)})[k] == kv[k]
  {
  }

  /** When every key starting with `collection` holds a node, `findAll` lists them all, in key order. */
  lemma FindAllListsEveryNode(db: RocksDb)
    requires db.Valid()
    requires forall k | k in db.kv && StartsWith(k, COLLECTION_ID_KEY) :: db.kv[k].NodeRec?
    ensures var r := DecodeAll(db.kv, KeysWithPrefix(db.keys, COLLECTION_ID_KEY), AsNode);
      r.Ok? && forall k | k in db.kv && StartsWith(k, COLLECTION_ID_KEY) :: db.kv[k].node in r.value
  {
    var ks := KeysWithPrefix(db.keys, COLLECTION_ID_KEY);
    var r := DecodeAll(db.kv, ks, AsNode);
    DecodeAllMeaning(db.kv, ks, AsNode);
    forall k | k in db.kv && StartsWith(k, COLLECTION_ID_KEY) ensures db.kv[k].node in r.value {
      assert k in ks;
      var i :| 0 <= i < |ks| && ks[i] == k;
      assert r.value[i] == db.kv[k].node;
    }
  }
}
