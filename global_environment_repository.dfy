/**
 * GlobalEnvironmentRepository: global variables of the repository
 * generation. Reads go through `global_variable:<key>` and a scan of the
 * prefix `global_variable`; `save` writes the bare value at the bare key,
 * so no read of this class ever sees what `save` wrote.
 */
module GlobalEnvironmentRepository {
  import opened JavaLang
  import opened Records
  import opened RocksStore
  import opened KeyOrder
  import opened RocksDbRepository

  const COLLECTION_ID_KEY: string := "global_variable"

  /**
   * `saveAll`: `forEach(save)`, in list order; a variable without a key
   * makes `key.getBytes()` throw, which the generic repository rethrows as
   * a RuntimeException and which ends the loop with the earlier saves kept.
   */
  function SavedAll(kv: map<string, Stored>, variables: seq<GlobalVariable>): (e: Effect<()>)
    ensures e.result.Ok? <==> forall i | 0 <= i < |variables| :: variables[i].key.Some?
    ensures e.result.Err? ==> e.result.error == Runtime
    decreases |variables|
  {
    if variables == [] then Effect(kv, Ok(()))
    else if variables[0].key.None? then Effect(kv, Err(Runtime))
    else
      var e := SavedAll(kv[variables[0].key.value := ObjectRec(variables[0].value)], variables[1..]);
      assert forall i | 1 <= i < |variables| :: variables[i] == variables[1..][i - 1];
      e
  }

  class VariableRepository {
    const common: Repository

    constructor (common: Repository)
      ensures this.common == common
    {
      this.common := common;
    }

    method FindByKey(id: string) returns (r: Option<GlobalVariable>)
      ensures r == Find(common.db.kv, BuildKey(COLLECTION_ID_KEY, id), AsVariable)
    {
      r := common.FindByPrefixedKey(COLLECTION_ID_KEY, id, AsVariable);
    }

    method GetAll() returns (r: Result<seq<GlobalVariable>>)
      requires common.db.Valid()
      ensures r == DecodeAll(common.db.kv, KeysWithPrefix(common.db.keys, COLLECTION_ID_KEY), AsVariable)
    {
      r := common.FindAll(COLLECTION_ID_KEY, AsVariable);
    }

    method SaveAll(variables: seq<GlobalVariable>) returns (r: Result<()>)
      requires common.db.Valid()
      modifies common.db
      ensures common.db.Valid()
      ensures common.db.kv == SavedAll(old(common.db.kv), variables).kv && r == SavedAll(old(common.db.kv), variables).result
    {
      var i := 0;
      while i < |variables|
        invariant 0 <= i <= |variables| && common.db.Valid()
        invariant SavedAll(common.db.kv, variables[i..]) == SavedAll(old(common.db.kv), variables)
      {
        assert variables[i..][1..] == variables[i + 1..];
        var saved := Save(variables[i]);
        if saved.Err? {
          return saved;
        }
        i := i + 1;
      }
      return Ok(());
    }

    /** `save`: the value alone, at the variable's key with no prefix. */
    method Save(variable: GlobalVariable) returns (r: Result<()>)
      requires common.db.Valid()
      modifies common.db
      ensures common.db.Valid()
      ensures variable.key.None? ==> r == Err(Runtime) && common.db.kv == old(common.db.kv)
      ensures variable.key.Some? ==> r == Ok(()) && common.db.kv == old(common.db.kv)[variable.key.value := ObjectRec(variable.value)]
    {
      if variable.key.None? {
        return Err(Runtime);
      }
      common.Save(variable.key.value, ObjectRec(variable.value));
      return Ok(());
    }
  }

  // ------------------------------------------------------------ properties

  /** `save` never changes what `findByKey` of the same key reads: the two use different keys. */
  lemma SaveInvisibleToFindByKey(kv: map<string, Stored>, variable: GlobalVariable)
    requires variable.key.Some?
    ensures var k := variable.key.value;
      Find(kv[k := ObjectRec(variable.value)], BuildKey(COLLECTION_ID_KEY, k), AsVariable) == Find(kv, BuildKey(COLLECTION_ID_KEY, k), AsVariable)
  {
    var k := variable.key.value;
    assert |BuildKey(COLLECTION_ID_KEY, k)| > |k|;
  }

  /**
   * After a successful `saveAll`, each variable's key holds the value of
   * the last variable in the list with that key; keys of none of them keep
   * what they held.
   */
  lemma {:induction false} SaveAllLastWins(kv: map<string, Stored>, variables: seq<GlobalVariable>, i: nat, k: string)
    requires SavedAll(kv, variables).result.Ok?
    requires i < |variables| && variables[i].key == Some(k)
    requires forall j | i < j < |variables| :: variables[j].key != Some(k)
    ensures k in SavedAll(kv, variables).kv && SavedAll(kv, variables).kv[k] == ObjectRec(variables[i].value)
    decreases |variables|
  {
    var rest := variables[1..];
    var kv1 := kv[variables[0].key.value := ObjectRec(variables[0].value)];
    if i == 0 {
      SaveAllKeeps(kv1, rest, k);
    } else {
      assert forall j | i - 1 < j < |rest| :: rest[j] == variables[j + 1];
      SaveAllLastWins(kv1, rest, i - 1, k);
    }
  }

  lemma {:induction false} SaveAllKeeps(kv: map<string, Stored>, variables: seq<GlobalVariable>, k: string)
    requires forall j | 0 <= j < |variables| :: variables[j].key != Some(k)
    ensures k in kv ==> k in SavedAll(kv, variables).kv && SavedAll(kv, variables).kv[k] == kv[k]
    ensures k !in kv ==> k !in SavedAll(kv, variables).kv
    decreases |variables|
  {
    if variables != [] && variables[0].key.Some? {
      var rest := variables[1..];
      assert forall j | 0 <= j < |rest| :: rest[j] == variables[j + 1];
      SaveAllKeeps(kv[variables[0].key.value := ObjectRec(variables[0].value)], rest, k);
    }
  }

  /** A variable without a key stops `saveAll` there: the earlier variables stay saved, the later ones are not. */
  lemma {:induction false} SaveAllStopsAtMissingKey(kv: map<string, Stored>, variables: seq<GlobalVariable>, i: nat)
    requires i < |variables| && variables[i].key.None?
    requires forall j | 0 <= j < i :: variables[j].key.Some?
    ensures SavedAll(kv, variables).kv == SavedAll(kv, variables[..i]).kv
    decreases i
  {
    if i > 0 {
      var rest := variables[1..];
      assert forall j | 0 <= j < i - 1 :: rest[j] == variables[j + 1];
      assert variables[..i][1..] == rest[..i - 1];
      SaveAllStopsAtMissingKey(kv[variables[0].key.value := ObjectRec(variables[0].value)], rest, i - 1);
    } else {
      assert variables[..0] == [];
    }
  }
}
