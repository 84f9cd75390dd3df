/**
 * GroupService of the storage generation: groups of mock flows kept by
 * GroupStorage, with each group's flow count read from MockFlowStorage.
 * `createGroup` refuses a name the name index already holds (the index
 * folds letter case) and stores the new group as active; `updateGroupStatus`,
 * `findById` and `deleteGroup` answer 404 GROUP_NOT_FOUND for an unknown id.
 */
module GroupService {
  import opened JavaLang
  import opened Records
  import opened RocksStore
  import opened IdSets
  import opened GroupStorage
  import MockFlowStorage

  const GROUP_ALREADY_EXISTS: Error := Base(400, "GROUP_ALREADY_EXISTS")
  const GROUP_NOT_FOUND: Error := Base(404, "GROUP_NOT_FOUND")

  datatype GroupRequest = GroupRequest(name: string)
  datatype UpdateGroupStatusRequest = UpdateGroupStatusRequest(isActive: Option<bool>)

  /** The response; `mockCount` is set only by `getAll`. */
  datatype GroupResponse = GroupResponse(id: Option<string>, name: string, mockCount: Option<int>, isActive: Option<bool>)

  /** `toGroupResponse`, with the count `getAll` sets. */
  function Response(g: MockGroup, mockCount: Option<int>): (r: GroupResponse)
    ensures r.id == g.id && r.name == g.name && r.isActive == g.isActive && r.mockCount == mockCount
  {
    GroupResponse(g.id, g.name, mockCount, g.isActive)
  }

  /** `countByGroupId`: the size of the group's flow set; a set that does not read throws. */
  function FlowCount(kv: map<string, Stored>, groupId: Option<string>): Result<nat> {
    var ids := ReadSet(kv, MockFlowStorage.GroupFlowsKey(groupId));
    if ids.Ok? then Ok(|ids.value|) else Err(IllegalState)
  }

  /** A group as `save` stores it: with its own id, or one drawn when it has none. */
  function Identified(g: MockGroup, newId: string): (r: MockGroup)
    ensures r.id.Some? && r.name == g.name && r.isActive == g.isActive
    ensures g.id.Some? ==> r == g
  {
    if g.id.Some? then g else g.(id := Some(newId))
  }

  // ------------------------------------------------------------ properties

  /**
   * A created group reads back active, and once it is stored any spelling
   * of its name is taken, so a second `createGroup` of it is refused.
   */
  lemma CreateThenRecreate(kv: map<string, Stored>, name: string, newId: string, spelling: string)
    requires IsCanonicalUuid(newId) && SaveEffect(kv, MockGroup(Some(newId), name, Some(true))).result.Ok?
    requires LowerCase(spelling) == LowerCase(name)
    ensures var kv' := SaveEffect(kv, MockGroup(Some(newId), name, Some(true))).kv;
      GroupAt(kv', newId) == Ok(Some(MockGroup(Some(newId), name, Some(true))))
      && GroupNamed(kv', spelling).Ok? && GroupNamed(kv', spelling).value.Some?
      && GroupNamed(kv', spelling).value.value.isActive == Some(true)
  {
    SaveReadsBack(kv, MockGroup(Some(newId), name, Some(true)), spelling);
  }

  /**
   * A status update reads back: the stored group keeps its id and name
   * and carries the request's flag, null included.
   */
  lemma StatusUpdateReadsBack(kv: map<string, Stored>, g: MockGroup, status: Option<bool>, newId: string)
    requires g.id.Some? && IsCanonicalUuid(g.id.value)
    requires SaveEffect(kv, Identified(g.(isActive := status), newId)).result.Ok?
    ensures var kv' := SaveEffect(kv, Identified(g.(isActive := status), newId)).kv;
      GroupAt(kv', g.id.value) == Ok(Some(MockGroup(g.id, g.name, status)))
      && Response(GroupAt(kv', g.id.value).value.value, None).isActive == status
  {
    SaveReadsBack(kv, g.(isActive := status), g.name);
  }

  /** `deleteGroup` removes only group records: the group's flow set, and so its flow count, stay as they were. */
  lemma DeleteKeepsGroupFlows(kv: map<string, Stored>, id: string)
    requires IsCanonicalUuid(id)
    ensures var key := MockFlowStorage.GroupFlowsKey(Some(id)); var kv' := DeleteEffect(kv, id).kv;
      (key in kv' <==> key in kv) && (key in kv ==> kv'[key] == kv[key])
    ensures FlowCount(DeleteEffect(kv, id).kv, Some(id)) == FlowCount(kv, Some(id))
  {
    var key := MockFlowStorage.GroupFlowsKey(Some(id));
    assert key == "group:" + id + ":flows";
    assert |key| == 48 && key != GroupKey(id) && key != GROUP_IDS_KEY;
    forall name: string
      ensures key != GroupNameKey(name)
    {
      assert key[10] == id[4];
      assert GroupNameKey(name)[10] == ':';
    }
  }

  // --------------------------------------------------------------- service

  class Service {
    const groups: GroupStorage.Storage
    const flows: MockFlowStorage.FlowStorage

    constructor (groups: GroupStorage.Storage, flows: MockFlowStorage.FlowStorage)
      ensures this.groups == groups && this.flows == flows
    {
      this.groups := groups;
      this.flows := flows;
    }

    /**
     * `createGroup`: a name already in the index (in any letter case) is
     * refused with 400 GROUP_ALREADY_EXISTS and nothing is stored;
     * otherwise an active group of that name is saved under a newId id.
     */
    method CreateGroup(request: GroupRequest) returns (r: Result<()>)
      requires groups.db.Valid()
      modifies groups.db, groups.uuids
      ensures groups.db.Valid()
      ensures var named := old(GroupNamed(groups.db.kv, request.name));
        named.Err? ==> r == Err(named.error) && groups.db.kv == old(groups.db.kv) && groups.uuids.next == old(groups.uuids.next)
      ensures var named := old(GroupNamed(groups.db.kv, request.name));
        named.Ok? && named.value.Some? ==>
          r == Err(GROUP_ALREADY_EXISTS) && groups.db.kv == old(groups.db.kv) && groups.uuids.next == old(groups.uuids.next)
      ensures var named := old(GroupNamed(groups.db.kv, request.name));
        var e := old(SaveEffect(groups.db.kv, MockGroup(Some(groups.uuids.supply(groups.uuids.next)), request.name, Some(true))));
        named == Ok(None) ==>
          groups.db.kv == e.kv && (r == if e.result.Ok? then Ok(()) else Err(e.result.error))
          && groups.uuids.next == old(groups.uuids.next) + 1
    {
      var existing := groups.FindByName(request.name);
      if existing.Err? {
        return Err(existing.error);
      }
      if existing.value.Some? {
        return Err(GROUP_ALREADY_EXISTS);
      }
      var entity := MockGroup(None, request.name, Some(true));
      var saved := groups.Save(entity);
      if saved.Err? {
        return Err(saved.error);
      }
      r := Ok(());
    }

    /**
     * `getAll`: the groups `findAll` lists, each with the size of its flow
     * set; a listing or a count that fails throws IllegalStateException.
     * The listing's order is not fixed, so it is returned as `listed`.
     */
    method GetAll() returns (r: Result<seq<GroupResponse>>, ghost listed: seq<MockGroup>)
      ensures r.Err? ==> r.error == IllegalState
      ensures r.Ok? ==>
        ReadIds(groups.db.kv, GROUP_IDS_KEY).Ok?
        && ListsExactly(groups.db.kv, listed, ReadIds(groups.db.kv, GROUP_IDS_KEY).value, GroupAt)
        && |r.value| == |listed|
        && forall i | 0 <= i < |listed| ::
             FlowCount(flows.db.kv, listed[i].id).Ok? && r.value[i] == Response(listed[i], Some(FlowCount(flows.db.kv, listed[i].id).value))
      ensures r.Err? ==>
        ReadIds(groups.db.kv, GROUP_IDS_KEY).Err?
        || (exists id | id in ReadIds(groups.db.kv, GROUP_IDS_KEY).value :: GroupAt(groups.db.kv, id).Err?)
        || (ListsExactly(groups.db.kv, listed, ReadIds(groups.db.kv, GROUP_IDS_KEY).value, GroupAt)
            && exists i | 0 <= i < |listed| :: FlowCount(flows.db.kv, listed[i].id).Err?)
    {
      var all := groups.FindAll();
      if all.Err? {
        return Err(all.error), [];
      }
      var gs := all.value;
      listed := gs;
      var responses: seq<GroupResponse> := [];
      for i := 0 to |gs|
        invariant |responses| == i
        invariant forall j | 0 <= j < i ::
          FlowCount(flows.db.kv, gs[j].id).Ok? && responses[j] == Response(gs[j], Some(FlowCount(flows.db.kv, gs[j].id).value))
      {
        var count := flows.CountByGroupId(gs[i].id);
        if count.Err? {
          return Err(count.error), gs;
        }
        responses := responses + [Response(gs[i], Some(count.value))];
      }
      r := Ok(responses);
    }

    /**
     * `updateGroupStatus`: 404 GROUP_NOT_FOUND for an unknown id, storing
     * nothing; otherwise the stored group is saved again with only
     * `isActive` replaced. The flag is a boxed Boolean, so a request
     * without one stores a group whose flag is null.
     */
    method UpdateGroupStatus(id: string, request: UpdateGroupStatusRequest) returns (r: Result<()>)
      requires groups.db.Valid()
      modifies groups.db, groups.uuids
      ensures groups.db.Valid()
      ensures var stored := old(GroupAt(groups.db.kv, id));
        stored.Err? ==> r == Err(stored.error) && groups.db.kv == old(groups.db.kv)
      ensures var stored := old(GroupAt(groups.db.kv, id));
        stored == Ok(None) ==> r == Err(GROUP_NOT_FOUND) && groups.db.kv == old(groups.db.kv)
      ensures var stored := old(GroupAt(groups.db.kv, id));
        stored.Ok? && stored.value.Some? ==>
          var g := Identified(stored.value.value.(isActive := request.isActive), old(groups.uuids.supply(groups.uuids.next)));
          groups.db.kv == old(SaveEffect(groups.db.kv, g).kv)
          && r == (if old(SaveEffect(groups.db.kv, g).result).Ok? then Ok(()) else Err(old(SaveEffect(groups.db.kv, g).result).error))
    {
      var entity := groups.FindById(id);
      if entity.Err? {
        return Err(entity.error);
      }
      if entity.value.None? {
        return Err(GROUP_NOT_FOUND);
      }
      var saved := groups.Save(entity.value.value.(isActive := request.isActive));
      if saved.Err? {
        return Err(saved.error);
      }
      r := Ok(());
    }

    /** `findById`: 404 GROUP_NOT_FOUND for an unknown id, else the group without a count. */
    method FindById(id: string) returns (r: Result<GroupResponse>)
      ensures var stored := GroupAt(groups.db.kv, id);
        r == if stored.Err? then Err(stored.error)
             else if stored.value.None? then Err(GROUP_NOT_FOUND)
             else Ok(Response(stored.value.value, None))
    {
      var entity := groups.FindById(id);
      if entity.Err? {
        return Err(entity.error);
      }
      if entity.value.None? {
        return Err(GROUP_NOT_FOUND);
      }
      r := Ok(Response(entity.value.value, None));
    }

    /**
     * `deleteGroup`: 404 GROUP_NOT_FOUND for an unknown id, deleting
     * nothing; otherwise the group is deleted under its own id.
     */
    method DeleteGroup(id: string) returns (r: Result<()>)
      requires groups.db.Valid()
      requires var stored := GroupAt(groups.db.kv, id); stored.Ok? && stored.value.Some? ==> stored.value.value.id.Some?
      modifies groups.db
      ensures groups.db.Valid()
      ensures var stored := old(GroupAt(groups.db.kv, id));
        stored.Err? ==> r == Err(stored.error) && groups.db.kv == old(groups.db.kv)
      ensures var stored := old(GroupAt(groups.db.kv, id));
        stored == Ok(None) ==> r == Err(GROUP_NOT_FOUND) && groups.db.kv == old(groups.db.kv)
      ensures var stored := old(GroupAt(groups.db.kv, id));
        stored.Ok? && stored.value.Some? ==>
          groups.db.kv == old(DeleteEffect(groups.db.kv, stored.value.value.id.value).kv)
          && r == old(DeleteEffect(groups.db.kv, stored.value.value.id.value).result)
    {
      var entity := groups.FindById(id);
      if entity.Err? {
        return Err(entity.error);
      }
      if entity.value.None? {
        return Err(GROUP_NOT_FOUND);
      }
      r := groups.Delete(entity.value.value.id.value);
    }
  }
}
