/**
 * CollectionService: the tree of collection nodes kept through the
 * collection repository. `getFullTree` indexes every node by id, then in
 * one pass over the stored list files each node as a root (no parent id,
 * or an empty one) or under its parent; a node whose parent is not stored
 * appears nowhere. The response objects are shared between the index and
 * the children lists, so the model names each node by its id: a tree is
 * the index, the root ids in list order, and each indexed node's child ids
 * in list order.
 */
module CollectionService {
  import opened JavaLang
  import opened Records
  import opened RocksStore
  import opened RocksDbRepository
  import opened KeyOrder
  import CollectionRepository

  const NODE_NOT_FOUND: Error := Base(404, "NODE_NOT_FOUND")

  datatype CreateNodeRequest = CreateNodeRequest(name: string, nodeType: string, parentId: Option<string>)
  datatype UpdateNodeRequest = UpdateNodeRequest(name: string)

  /** The response tree (a forest of roots), each node named by its id. */
  datatype Tree = Forest(nodes: map<string, CollectionNode>, roots: seq<string>, children: map<string, seq<string>>)

  /** A node without a parent id, or with an empty one, is a root. */
  predicate IsRoot(n: CollectionNode) {
    n.parentId.None? || n.parentId.value == ""
  }

  /** The node filed under parent `p`. */
  predicate ChildOf(n: CollectionNode, p: string) {
    !IsRoot(n) && n.parentId.value == p
  }

  predicate DistinctIds(ns: seq<CollectionNode>) {
    forall i, j | 0 <= i < j < |ns| :: ns[i].id != ns[j].id
  }

  /** `Collectors.toMap(getId, ...)`: a repeated id throws. */
  function NodeMap(ns: seq<CollectionNode>): Result<map<string, CollectionNode>>
    decreases |ns|
  {
    if ns == [] then Ok(map[])
    else
      var m :- NodeMap(ns[..|ns| - 1]);
      var n := ns[|ns| - 1];
      if n.id in m then Err(IllegalState) else Ok(m[n.id := n])
  }

  /** The root ids, in list order. */
  function RootIds(ns: seq<CollectionNode>): seq<string>
    decreases |ns|
  {
    if ns == [] then []
    else RootIds(ns[..|ns| - 1]) + (if IsRoot(ns[|ns| - 1]) then [ns[|ns| - 1].id] else [])
  }

  /** The ids filed under `p`, in list order. */
  function ChildIds(ns: seq<CollectionNode>, p: string): seq<string>
    decreases |ns|
  {
    if ns == [] then []
    else ChildIds(ns[..|ns| - 1], p) + (if ChildOf(ns[|ns| - 1], p) then [ns[|ns| - 1].id] else [])
  }

  /** Filing one more node as a root, under its parent, or nowhere extends the root list and the child lists by that node. */
  lemma FiledStep(ns: seq<CollectionNode>, i: nat, roots: seq<string>, children: map<string, seq<string>>,
                  roots': seq<string>, children': map<string, seq<string>>)
    requires i < |ns|
    requires roots == RootIds(ns[..i]) && forall p | p in children :: children[p] == ChildIds(ns[..i], p)
    requires IsRoot(ns[i]) ==> roots' == roots + [ns[i].id] && children' == children
    requires !IsRoot(ns[i]) && ns[i].parentId.value in children ==>
      roots' == roots && children' == children[ns[i].parentId.value := children[ns[i].parentId.value] + [ns[i].id]]
    requires !IsRoot(ns[i]) && ns[i].parentId.value !in children ==> roots' == roots && children' == children
    ensures roots' == RootIds(ns[..i + 1]) && children'.Keys == children.Keys
    ensures forall p | p in children' :: children'[p] == ChildIds(ns[..i + 1], p)
  {
    assert ns[..i + 1][..i] == ns[..i];
    forall p | p in children'
      ensures children'[p] == ChildIds(ns[..i + 1], p)
    {
      assert ChildIds(ns[..i + 1], p) == ChildIds(ns[..i], p) + (if ChildOf(ns[i], p) then [ns[i].id] else []);
    }
  }

  // ------------------------------------------------------------ properties

  /** The index succeeds exactly when the ids are distinct, and then maps each id to its node. */
  lemma {:induction false} NodeMapMeaning(ns: seq<CollectionNode>)
    ensures NodeMap(ns).Ok? <==> DistinctIds(ns)
    ensures NodeMap(ns).Ok? ==>
      (forall i | 0 <= i < |ns| :: ns[i].id in NodeMap(ns).value && NodeMap(ns).value[ns[i].id] == ns[i])
      && (forall id | id in NodeMap(ns).value :: exists i | 0 <= i < |ns| :: ns[i].id == id)
    ensures NodeMap(ns).Err? ==> NodeMap(ns).error == IllegalState
    decreases |ns|
  {
    if ns != [] {
      var init := ns[..|ns| - 1];
      NodeMapMeaning(init);
      assert forall i | 0 <= i < |init| :: init[i] == ns[i];
      if NodeMap(init).Ok? && ns[|ns| - 1].id in NodeMap(init).value {
        var i :| 0 <= i < |init| && init[i].id == ns[|ns| - 1].id;
        assert ns[i].id == ns[|ns| - 1].id;
      }
    }
  }

  /** An id is listed as a root exactly when some root node has it. */
  lemma {:induction false} RootIdsMeaning(ns: seq<CollectionNode>, x: string)
    ensures x in RootIds(ns) <==> exists i | 0 <= i < |ns| :: ns[i].id == x && IsRoot(ns[i])
    decreases |ns|
  {
    if ns != [] {
      var init := ns[..|ns| - 1];
      RootIdsMeaning(init, x);
      assert forall i | 0 <= i < |init| :: init[i] == ns[i];
    }
  }

  /** An id is filed under `p` exactly when some node with that parent has it. */
  lemma {:induction false} ChildIdsMeaning(ns: seq<CollectionNode>, p: string, x: string)
    ensures x in ChildIds(ns, p) <==> exists i | 0 <= i < |ns| :: ns[i].id == x && ChildOf(ns[i], p)
    decreases |ns|
  {
    if ns != [] {
      var init := ns[..|ns| - 1];
      ChildIdsMeaning(init, p, x);
      assert forall i | 0 <= i < |init| :: init[i] == ns[i];
    }
  }

  /** With distinct ids no root is listed twice. */
  lemma {:induction false} RootsListedOnce(ns: seq<CollectionNode>)
    requires DistinctIds(ns)
    ensures NoDuplicates(RootIds(ns))
    decreases |ns|
  {
    if ns != [] {
      var init := ns[..|ns| - 1];
      assert DistinctIds(init);
      RootsListedOnce(init);
      RootIdsMeaning(init, ns[|ns| - 1].id);
    }
  }

  /** With distinct ids no child is filed twice under the same parent. */
  lemma {:induction false} ChildrenListedOnce(ns: seq<CollectionNode>, p: string)
    requires DistinctIds(ns)
    ensures NoDuplicates(ChildIds(ns, p))
    decreases |ns|
  {
    if ns != [] {
      var init := ns[..|ns| - 1];
      assert DistinctIds(init);
      ChildrenListedOnce(init, p);
      ChildIdsMeaning(init, p, ns[|ns| - 1].id);
    }
  }

  /**
   * Where a stored node lands in the tree, when the ids are distinct: a
   * root is listed among the roots and under no parent; any other node is
   * filed only under its own parent, or, when that parent is not stored,
   * nowhere.
   */
  lemma NodePlacement(ns: seq<CollectionNode>, i: nat, p: string)
    requires DistinctIds(ns) && i < |ns|
    ensures ns[i].id in RootIds(ns) <==> IsRoot(ns[i])
    ensures ns[i].id in ChildIds(ns, p) <==> ChildOf(ns[i], p)
  {
    RootIdsMeaning(ns, ns[i].id);
    ChildIdsMeaning(ns, p, ns[i].id);
  }

  /** A node whose parent is not stored is neither a root nor anyone's child. */
  lemma OrphanAppearsNowhere(ns: seq<CollectionNode>, i: nat)
    requires NodeMap(ns).Ok? && i < |ns| && !IsRoot(ns[i]) && ns[i].parentId.value !in NodeMap(ns).value
    ensures ns[i].id !in RootIds(ns)
    ensures forall p | p in NodeMap(ns).value :: ns[i].id !in ChildIds(ns, p)
  {
    NodeMapMeaning(ns);
    forall p | p in NodeMap(ns).value
      ensures ns[i].id !in ChildIds(ns, p)
    {
      NodePlacement(ns, i, p);
    }
    NodePlacement(ns, i, "");
  }

  // --------------------------------------------------------------- service

  class Service {
    const nodes: CollectionRepository.NodeRepository
    const uuids: IdSource

    constructor (nodes: CollectionRepository.NodeRepository, uuids: IdSource)
      ensures this.nodes == nodes && this.uuids == uuids
    {
      this.nodes := nodes;
      this.uuids := uuids;
    }

    /** `createNode`: a node under a fresh random id with the request's name, type and parent, saved. */
    method CreateNode(request: CreateNodeRequest)
      requires nodes.common.db.Valid()
      modifies uuids, nodes.common.db
      ensures nodes.common.db.Valid() && uuids.next == old(uuids.next) + 1
      ensures nodes.common.db.kv == CollectionRepository.Saved(old(nodes.common.db.kv),
        CollectionNode(uuids.supply(old(uuids.next)), request.name, request.nodeType, request.parentId))
    {
      var id := uuids.Fresh();
      var node := CollectionNode(id, request.name, request.nodeType, request.parentId);
      nodes.Save(node);
    }

    /**
     * `getFullTree`: a stored list that fails to read, or holds two nodes
     * with the same id, throws; otherwise the tree indexes every node, lists
     * the roots and files each other node under its parent, in list order.
     */
    method GetFullTree() returns (r: Result<Tree>)
      requires nodes.common.db.Valid()
      ensures var all := DecodeAll(nodes.common.db.kv, KeysWithPrefix(nodes.common.db.keys, CollectionRepository.COLLECTION_ID_KEY), AsNode);
        all.Err? ==> r == Err(all.error)
      ensures var all := DecodeAll(nodes.common.db.kv, KeysWithPrefix(nodes.common.db.keys, CollectionRepository.COLLECTION_ID_KEY), AsNode);
        all.Ok? && NodeMap(all.value).Err? ==> r == Err(IllegalState)
      ensures var all := DecodeAll(nodes.common.db.kv, KeysWithPrefix(nodes.common.db.keys, CollectionRepository.COLLECTION_ID_KEY), AsNode);
        all.Ok? && NodeMap(all.value).Ok? ==>
          r.Ok? && r.value.nodes == NodeMap(all.value).value && r.value.roots == RootIds(all.value)
          && r.value.children.Keys == r.value.nodes.Keys
          && forall p | p in r.value.children :: r.value.children[p] == ChildIds(all.value, p)
    {
      var all := nodes.FindAll();
      if all.Err? {
        return Err(all.error);
      }
      var ns := all.value;
      var index := NodeMap(ns);
      if index.Err? {
        NodeMapMeaning(ns);
        return Err(IllegalState);
      }
      var roots: seq<string> := [];
      var children: map<string, seq<string>> := map id | id in index.value :: [];
      for i := 0 to |ns|
        invariant roots == RootIds(ns[..i])
        invariant children.Keys == index.value.Keys
        invariant forall p | p in children :: children[p] == ChildIds(ns[..i], p)
      {
        ghost var roots0, children0 := roots, children;
        var node := ns[i];
        if IsRoot(node) {
          roots := roots + [node.id];
        } else if node.parentId.value in children {
          children := children[node.parentId.value := children[node.parentId.value] + [node.id]];
        }
        FiledStep(ns, i, roots0, children0, roots, children);
      }
      assert ns[..|ns|] == ns;
      r := Ok(Forest(index.value, roots, children));
    }

    /** `deleteNode`: the node's key is removed, whether or not it was stored. */
    method DeleteNode(id: string)
      requires nodes.common.db.Valid()
      modifies nodes.common.db
      ensures nodes.common.db.Valid()
      ensures nodes.common.db.kv == old(nodes.common.db.kv) - {BuildKey(CollectionRepository.COLLECTION_ID_KEY, id)}
    {
      nodes.Delete(id);
    }

    /**
     * `updateNode`: 404 NODE_NOT_FOUND for an unknown id, saving nothing;
     * otherwise the stored node is saved again with only its name replaced.
     */
    method UpdateNode(id: string, request: UpdateNodeRequest) returns (r: Result<()>)
      requires nodes.common.db.Valid()
      modifies nodes.common.db
      ensures nodes.common.db.Valid()
      ensures var stored := old(Find(nodes.common.db.kv, BuildKey(CollectionRepository.COLLECTION_ID_KEY, id), AsNode));
        stored.None? ==> r == Err(NODE_NOT_FOUND) && nodes.common.db.kv == old(nodes.common.db.kv)
      ensures var stored := old(Find(nodes.common.db.kv, BuildKey(CollectionRepository.COLLECTION_ID_KEY, id), AsNode));
        stored.Some? ==>
          r == Ok(())
          && nodes.common.db.kv == CollectionRepository.Saved(old(nodes.common.db.kv), stored.value.(name := request.name))
    {
      var existing := nodes.FindById(id);
      if existing.None? {
        return Err(NODE_NOT_FOUND);
      }
      var updated := CollectionNode(existing.value.id, request.name, existing.value.nodeType, existing.value.parentId);
      nodes.Save(updated);
      r := Ok(());
    }
  }
}
