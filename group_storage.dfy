/**
 * GroupStorage: mock groups at `group:<id>`, a case-folded name index at
 * `group:name:<lower-case name>` holding the id, and the set of all group
 * ids at `group:ids`. Reads of the wrong type raise IllegalStateException.
 */
module GroupStorage {
  import opened JavaLang
  import opened Records
  import opened RocksStore
  import opened IdSets

  const GROUP_PREFIX: string := "group"
  const GROUP_IDS_KEY: string := "group:ids"
  const GROUP_NAME_PREFIX: string := "group:name"

  function GroupKey(id: string): (k: string)
    ensures StartsWith(k, "group:") && k[6..] == id
  {
    assert (GROUP_PREFIX + ":" + id)[..6] == "group:";
    GROUP_PREFIX + ":" + id
  }

  /** The name index key: names that differ only in letter case share it. */
  function GroupNameKey(name: string): (k: string)
    ensures StartsWith(k, "group:name:") && k[11..] == LowerCase(name)
  {
    assert (GROUP_NAME_PREFIX + ":" + LowerCase(name))[..11] == "group:name:";
    GROUP_NAME_PREFIX + ":" + LowerCase(name)
  }

  /** A canonical UUID never makes a group key collide with the id set or the name index. */
  lemma GroupKeyDistinct(id: string, name: string)
    requires IsCanonicalUuid(id)
    ensures GroupKey(id) != GROUP_IDS_KEY && GroupKey(id) != GroupNameKey(name)
  {
    assert GROUP_IDS_KEY[6..] == "ids";
    assert GroupNameKey(name)[10] == ':';
  }

  lemma NameKeyDistinct(name: string)
    ensures GroupNameKey(name) != GROUP_IDS_KEY
  {
    assert |GroupNameKey(name)| >= 11 > |GROUP_IDS_KEY|;
  }

  // ---------------------------------------------------------- the reads

  /** `findById`: `get(groupKey(id), MockGroup.class)`. */
  function GroupAt(kv: map<string, Stored>, id: string): (r: Result<Option<MockGroup>>)
    ensures GroupKey(id) !in kv <==> r == Ok(None)
    ensures r.Err? <==> GroupKey(id) in kv && !kv[GroupKey(id)].GroupRec?
    ensures r.Err? ==> r.error == IllegalState
    ensures r.Ok? && r.value.Some? ==> kv[GroupKey(id)] == GroupRec(r.value.value)
  {
    var key := GroupKey(id);
    if key !in kv then Ok(None)
    else match AsGroup(kv[key]) case None => Err(IllegalState) case Some(g) => Ok(Some(g))
  }

  /** `get(groupNameKey(name), UUID.class)`. */
  function NamedId(kv: map<string, Stored>, name: string): (r: Result<Option<string>>)
    ensures GroupNameKey(name) !in kv <==> r == Ok(None)
    ensures r.Err? <==> GroupNameKey(name) in kv && !kv[GroupNameKey(name)].IdText?
    ensures r.Ok? && r.value.Some? ==> kv[GroupNameKey(name)] == IdText(r.value.value)
  {
    var key := GroupNameKey(name);
    if key !in kv then Ok(None)
    else match AsIdText(kv[key]) case None => Err(IllegalState) case Some(id) => Ok(Some(id))
  }

  /** `findByName`: the id under the case-folded name, then the group under that id. */
  function GroupNamed(kv: map<string, Stored>, name: string): (r: Result<Option<MockGroup>>)
    ensures NamedId(kv, name).Ok? && NamedId(kv, name).value.Some? ==> r == GroupAt(kv, NamedId(kv, name).value.value)
    ensures NamedId(kv, name) == Ok(None) ==> r == Ok(None)
    ensures NamedId(kv, name).Err? ==> r.Err?
  {
    var id :- NamedId(kv, name);
    if id.None? then Ok(None) else GroupAt(kv, id.value)
  }

  /** `save` of a group that has its id: the group, its name index entry, then the id set. */
  function SaveEffect(kv: map<string, Stored>, group: MockGroup): Effect<MockGroup>
    requires group.id.Some?
  {
    var id := group.id.value;
    var kv1 := kv[GroupKey(id) := GroupRec(group)][GroupNameKey(group.name) := IdText(id)];
    var e := UpdatedIds(kv1, GROUP_IDS_KEY, true, id);
    Effect(e.kv, if e.result.Ok? then Ok(group) else Err(e.result.error))
  }

  /** `delete(id)`: nothing for an unknown id; else the group, the name entry of its stored name, and the id. */
  function DeleteEffect(kv: map<string, Stored>, id: string): Effect<()> {
    match GroupAt(kv, id)
    case Err(err) => Effect(kv, Err(err))
    case Ok(None) => Effect(kv, Ok(()))
    case Ok(Some(group)) => UpdatedIds(kv - {GroupKey(id)} - {GroupNameKey(group.name)}, GROUP_IDS_KEY, false, id)
  }

  // ------------------------------------------------------------ the class

  class Storage {
    const db: RocksDb
    const uuids: IdSource

    constructor (db: RocksDb, uuids: IdSource)
      ensures this.db == db && this.uuids == uuids
    {
      this.db := db;
      this.uuids := uuids;
    }

    /** The id is drawn only when the group has none. */
    method Save(group: MockGroup) returns (r: Result<MockGroup>)
      requires db.Valid()
      modifies db, uuids
      ensures db.Valid()
      ensures var g := if group.id.Some? then group else group.(id := Some(uuids.supply(old(uuids.next))));
        db.kv == SaveEffect(old(db.kv), g).kv && r == SaveEffect(old(db.kv), g).result
      ensures uuids.next == if group.id.Some? then old(uuids.next) else old(uuids.next) + 1
    {
      var g := group;
      if g.id.None? {
        var id := uuids.Fresh();
        g := g.(id := Some(id));
      }
      db.Put(GroupKey(g.id.value), GroupRec(g));
      db.Put(GroupNameKey(g.name), IdText(g.id.value));
      var updated := UpdateIds(true, g.id.value);
      if updated.Err? {
        return Err(updated.error);
      }
      return Ok(g);
    }

    method Delete(id: string) returns (r: Result<()>)
      requires db.Valid()
      modifies db
      ensures db.Valid()
      ensures db.kv == DeleteEffect(old(db.kv), id).kv && r == DeleteEffect(old(db.kv), id).result
    {
      var found := FindById(id);
      if found.Err? {
        return Err(found.error);
      }
      if found.value.Some? {
        db.Delete(GroupKey(id));
        db.Delete(GroupNameKey(found.value.value.name));
        r := UpdateIds(false, id);
      } else {
        r := Ok(());
      }
    }

    method FindById(id: string) returns (r: Result<Option<MockGroup>>)
      ensures r == GroupAt(db.kv, id)
    {
      var v := db.Get(GroupKey(id));
      if v.None? {
        return Ok(None);
      }
      if !v.value.GroupRec? {
        return Err(IllegalState);
      }
      return Ok(Some(v.value.group));
    }

    method FindByName(name: string) returns (r: Result<Option<MockGroup>>)
      ensures r == GroupNamed(db.kv, name)
    {
      var v := db.Get(GroupNameKey(name));
      if v.None? {
        return Ok(None);
      }
      if !v.value.IdText? {
        return Err(IllegalState);
      }
      r := FindById(v.value.uuid);
    }

    /** The groups for the ids in `group:ids`, in the set's iteration order, skipping ids with no group. */
    method FindAll() returns (r: Result<seq<MockGroup>>)
      ensures r.Err? <==> ReadIds(db.kv, GROUP_IDS_KEY).Err? || exists id | id in ReadIds(db.kv, GROUP_IDS_KEY).value :: GroupAt(db.kv, id).Err?
      ensures r.Err? ==> r.error == IllegalState
      ensures r.Ok? ==> ListsExactly(db.kv, r.value, ReadIds(db.kv, GROUP_IDS_KEY).value, GroupAt)
    {
      var ids := ReadIds(db.kv, GROUP_IDS_KEY);
      if ids.Err? {
        return Err(IllegalState);
      }
      var result: seq<MockGroup> := [];
      var rest := ids.value;
      while rest != {}
        invariant rest <= ids.value
        invariant forall id | id in ids.value - rest :: GroupAt(db.kv, id).Ok?
        invariant ListsExactly(db.kv, result, ids.value - rest, GroupAt)
        decreases |rest|
      {
        var id :| id in rest;
        var found := FindById(id);
        if found.Err? {
          return Err(IllegalState);
        }
        ListsExactlyStep(db.kv, result, ids.value - rest, id, GroupAt);
        assert (ids.value - rest) + {id} == ids.value - (rest - {id});
        if found.value.Some? {
          result := result + [found.value.value];
        }
        rest := rest - {id};
      }
      assert ids.value - rest == ids.value;
      return Ok(result);
    }

    method UpdateIds(add: bool, id: string) returns (r: Result<()>)
      requires db.Valid()
      modifies db
      ensures db.Valid()
      ensures db.kv == UpdatedIds(old(db.kv), GROUP_IDS_KEY, add, id).kv && r == UpdatedIds(old(db.kv), GROUP_IDS_KEY, add, id).result
    {
      var ids := ReadIds(db.kv, GROUP_IDS_KEY);
      if ids.Err? {
        return Err(ids.error);
      }
      db.Put(GROUP_IDS_KEY, IdSet(if add then ids.value + {id} else ids.value - {id}));
      return Ok(());
    }
  }

  // ------------------------------------------------------------ properties

  /** After a successful save the group reads back by id and by any spelling of its name, and its id is listed. */
  lemma SaveReadsBack(kv: map<string, Stored>, group: MockGroup, spelling: string)
    requires group.id.Some? && IsCanonicalUuid(group.id.value) && SaveEffect(kv, group).result.Ok?
    requires LowerCase(spelling) == LowerCase(group.name)
    ensures var kv' := SaveEffect(kv, group).kv;
      GroupAt(kv', group.id.value) == Ok(Some(group))
      && GroupNamed(kv', spelling) == Ok(Some(group))
      && ReadIds(kv', GROUP_IDS_KEY).Ok? && group.id.value in ReadIds(kv', GROUP_IDS_KEY).value
  {
    var id := group.id.value;
    GroupKeyDistinct(id, group.name);
    NameKeyDistinct(group.name);
    assert GroupNameKey(spelling) == GroupNameKey(group.name);
  }

  /** Deleting an unknown id changes nothing. */
  lemma DeleteUnknownIsNoOp(kv: map<string, Stored>, id: string)
    requires GroupKey(id) !in kv
    ensures DeleteEffect(kv, id) == Effect(kv, Ok(()))
  {
  }

  /** A successful delete removes the group, its name entry and its id. */
  lemma DeleteRemovesGroup(kv: map<string, Stored>, id: string)
    requires IsCanonicalUuid(id) && GroupAt(kv, id).Ok? && GroupAt(kv, id).value.Some?
    requires DeleteEffect(kv, id).result.Ok?
    ensures var kv' := DeleteEffect(kv, id).kv; var group := GroupAt(kv, id).value.value;
      GroupAt(kv', id) == Ok(None) && GroupNamed(kv', group.name) == Ok(None)
      && ReadIds(kv', GROUP_IDS_KEY).Ok? && id !in ReadIds(kv', GROUP_IDS_KEY).value
  {
    var group := GroupAt(kv, id).value.value;
    GroupKeyDistinct(id, group.name);
    NameKeyDistinct(group.name);
  }

  /**
   * Saving a group under a new name leaves the entry of its old name in
   * place, so the old name still finds the group, now with its new name.
   */
  lemma RenameKeepsOldName(kv: map<string, Stored>, group: MockGroup, oldName: string)
    requires group.id.Some? && IsCanonicalUuid(group.id.value) && SaveEffect(kv, group).result.Ok?
    requires LowerCase(oldName) != LowerCase(group.name)
    requires NamedId(kv, oldName) == Ok(Some(group.id.value))
    ensures GroupNamed(SaveEffect(kv, group).kv, oldName) == Ok(Some(group))
  {
    var id := group.id.value;
    GroupKeyDistinct(id, group.name);
    GroupKeyDistinct(id, oldName);
    NameKeyDistinct(group.name);
    NameKeyDistinct(oldName);
    assert GroupNameKey(oldName) != GroupNameKey(group.name) by {
      assert GroupNameKey(oldName)[11..] != GroupNameKey(group.name)[11..];
    }
  }

  // ------------------------------------------------ the save as intended

  /**
   * `save` as evidently intended: when the id already holds a group, the
   * name entry of its stored name is dropped before the new entries are
   * written, so a renamed group is no longer found by its old name.
   */
  function RenamingSaveEffect(kv: map<string, Stored>, group: MockGroup): Effect<MockGroup>
    requires group.id.Some?
  {
    var stale := match GroupAt(kv, group.id.value) case Ok(Some(prior)) => kv - {GroupNameKey(prior.name)} case _ => kv;
    SaveEffect(stale, group)
  }

  /**
   * After the intended save of a renamed group, the old name finds
   * nothing, while the id and every spelling of the new name find the
   * group.
   */
  lemma RenameDropsOldName(kv: map<string, Stored>, group: MockGroup, spelling: string)
    requires group.id.Some? && IsCanonicalUuid(group.id.value) && RenamingSaveEffect(kv, group).result.Ok?
    requires GroupAt(kv, group.id.value).Ok? && GroupAt(kv, group.id.value).value.Some?
    requires LowerCase(spelling) == LowerCase(group.name)
    ensures var prior := GroupAt(kv, group.id.value).value.value; var kv' := RenamingSaveEffect(kv, group).kv;
      (LowerCase(prior.name) != LowerCase(group.name) ==> GroupNamed(kv', prior.name) == Ok(None))
      && GroupAt(kv', group.id.value) == Ok(Some(group))
      && GroupNamed(kv', spelling) == Ok(Some(group))
  {
    var id := group.id.value;
    var prior := GroupAt(kv, id).value.value;
    var stale := kv - {GroupNameKey(prior.name)};
    GroupKeyDistinct(id, group.name);
    GroupKeyDistinct(id, prior.name);
    NameKeyDistinct(group.name);
    NameKeyDistinct(prior.name);
    SaveReadsBack(stale, group, spelling);
    if LowerCase(prior.name) != LowerCase(group.name) {
      assert GroupNameKey(prior.name) != GroupNameKey(group.name) by {
        assert GroupNameKey(prior.name)[11..] != GroupNameKey(group.name)[11..];
      }
    }
  }
}
