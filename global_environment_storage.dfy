/**
 * GlobalEnvironmentStorage: every global variable in one JSON list under
 * the single key `global`. `upsert` replaces the entries whose key equals
 * the new one exactly and appends the new one; `getValueByKey` looks keys
 * up ignoring case.
 */
module GlobalEnvironmentStorage {
  import opened JavaLang
  import opened Values
  import opened Records
  import opened RocksStore

  const ENV_KEY: string := "global"

  /** `getAll`: the stored list, empty when absent; bytes that are no variable list make the mapper throw. */
  function AllVariables(kv: map<string, Stored>): (r: Result<seq<GlobalVariable>>)
    ensures ENV_KEY !in kv ==> r == Ok([])
    ensures ENV_KEY in kv ==> (r.Ok? <==> kv[ENV_KEY].VariableList?)
    ensures ENV_KEY in kv && r.Ok? ==> r.value == kv[ENV_KEY].variables
    ensures r.Err? ==> r.error == Decode
  {
    if ENV_KEY !in kv then Ok([])
    else match AsVariableList(kv[ENV_KEY]) case None => Err(Decode) case Some(vs) => Ok(vs)
  }

  /** `validate`: the key must be present and not blank. */
  function Validated(variable: GlobalVariable): (r: Result<()>)
    ensures r.Ok? <==> variable.key.Some? && !IsBlank(variable.key.value)
    ensures r.Err? ==> r.error == IllegalArgument
  {
    if variable.key.None? || IsBlank(variable.key.value) then Err(IllegalArgument) else Ok(())
  }

  predicate HasNullKey(vars: seq<GlobalVariable>) {
    exists i | 0 <= i < |vars| :: vars[i].key.None?
  }

  /** The entries whose key is not exactly k, in their order. */
  function WithoutKey(vars: seq<GlobalVariable>, k: string): (r: seq<GlobalVariable>)
    ensures |r| <= |vars|
    ensures forall v | v in r :: v in vars && v.key != Some(k)
    ensures forall v | v in vars && v.key != Some(k) :: v in r
  {
    if vars == [] then []
    else if vars[0].key == Some(k) then WithoutKey(vars[1..], k)
    else [vars[0]] + WithoutKey(vars[1..], k)
  }

  /** The entries whose key is exactly k, in their order. */
  function WithKey(vars: seq<GlobalVariable>, k: string): (r: seq<GlobalVariable>)
    ensures forall v | v in r :: v in vars && v.key == Some(k)
    ensures forall v | v in vars && v.key == Some(k) :: v in r
  {
    if vars == [] then []
    else if vars[0].key == Some(k) then [vars[0]] + WithKey(vars[1..], k)
    else WithKey(vars[1..], k)
  }

  /**
   * `upsert`: validate, read the list, drop the entries with the same key
   * (`removeIf` calls `getKey().equals` on each, so a stored entry without
   * a key throws before anything is removed), append, write the list.
   */
  function UpsertEffect(kv: map<string, Stored>, variable: GlobalVariable): (e: Effect<()>)
    ensures e.result.Err? ==> e.kv == kv
    ensures e.result.Ok? <==> Validated(variable).Ok? && AllVariables(kv).Ok? && !HasNullKey(AllVariables(kv).value)
    ensures e.result.Ok? ==> e.kv == kv[ENV_KEY := VariableList(WithoutKey(AllVariables(kv).value, variable.key.value) + [variable])]
  {
    match Validated(variable)
    case Err(err) => Effect(kv, Err(err))
    case Ok(_) =>
      match AllVariables(kv)
      case Err(err) => Effect(kv, Err(err))
      case Ok(vars) =>
        if HasNullKey(vars) then Effect(kv, Err(NullPointer))
        else Effect(kv[ENV_KEY := VariableList(WithoutKey(vars, variable.key.value) + [variable])], Ok(()))
  }

  /** Why an upsert fails: a bad key first, then an unreadable list, then a stored entry without a key. */
  lemma UpsertErrors(kv: map<string, Stored>, variable: GlobalVariable)
    ensures Validated(variable).Err? ==> UpsertEffect(kv, variable).result == Err(IllegalArgument)
    ensures Validated(variable).Ok? && AllVariables(kv).Err? ==> UpsertEffect(kv, variable).result == Err(Decode)
    ensures Validated(variable).Ok? && AllVariables(kv).Ok? && HasNullKey(AllVariables(kv).value) ==>
              UpsertEffect(kv, variable).result == Err(NullPointer)
  {
  }

  /**
   * The stream in `getValueByKey`: the first entry whose key equals `key`
   * ignoring case, evaluated lazily, so an entry without a key throws only
   * if it comes before the first match; `map(getValue)` then `findFirst`
   * throws on a null value.
   */
  function FirstValue(vars: seq<GlobalVariable>, key: string): (r: Result<Option<Value>>)
    ensures r == Ok(None) <==> forall i | 0 <= i < |vars| :: vars[i].key.Some? && !EqualsIgnoreCase(vars[i].key.value, key)
    ensures r.Ok? && r.value.Some? ==> exists i | 0 <= i < |vars| :: vars[i].key.Some? && EqualsIgnoreCase(vars[i].key.value, key) && vars[i].value == r.value.value
    ensures r.Ok? && r.value.Some? ==> r.value.value != Null
    ensures r.Err? ==> r.error == NullPointer
  {
    if vars == [] then Ok(None)
    else if vars[0].key.None? then Err(NullPointer)
    else if EqualsIgnoreCase(vars[0].key.value, key) then
      (if vars[0].value.Null? then Err(NullPointer) else Ok(Some(vars[0].value)))
    else
      var r := FirstValue(vars[1..], key);
      assert forall i | 1 <= i < |vars| :: vars[i] == vars[1..][i - 1];
      r
  }

  function ValueByKey(kv: map<string, Stored>, key: string): (r: Result<Option<Value>>)
    ensures AllVariables(kv).Err? ==> r == Err(Decode)
    ensures AllVariables(kv).Ok? ==> r == FirstValue(AllVariables(kv).value, key)
  {
    var vars :- AllVariables(kv);
    FirstValue(vars, key)
  }

  class Storage {
    const db: RocksDb

    constructor (db: RocksDb)
      ensures this.db == db
    {
      this.db := db;
    }

    method GetAll() returns (r: Result<seq<GlobalVariable>>)
      ensures r == AllVariables(db.kv)
    {
      var v := db.Get(ENV_KEY);
      if v.None? {
        return Ok([]);
      }
      if !v.value.VariableList? {
        return Err(Decode);
      }
      return Ok(v.value.variables);
    }

    method SaveAll(variables: seq<GlobalVariable>)
      requires db.Valid()
      modifies db
      ensures db.Valid() && db.kv == old(db.kv)[ENV_KEY := VariableList(variables)]
    {
      db.Put(ENV_KEY, VariableList(variables));
    }

    method Upsert(variable: GlobalVariable) returns (r: Result<()>)
      requires db.Valid()
      modifies db
      ensures db.Valid()
      ensures db.kv == UpsertEffect(old(db.kv), variable).kv && r == UpsertEffect(old(db.kv), variable).result
    {
      var valid := Validated(variable);
      if valid.Err? {
        return Err(valid.error);
      }
      var vars := GetAll();
      if vars.Err? {
        return Err(vars.error);
      }
      if HasNullKey(vars.value) {
        return Err(NullPointer);
      }
      SaveAll(WithoutKey(vars.value, variable.key.value) + [variable]);
      return Ok(());
    }

    method GetValueByKey(key: string) returns (r: Result<Option<Value>>)
      ensures r == ValueByKey(db.kv, key)
    {
      var vars := GetAll();
      if vars.Err? {
        return Err(vars.error);
      }
      r := FirstValue(vars.value, key);
    }
  }

  // ------------------------------------------------------------ properties

  lemma {:induction false} WithKeyAppend(vars: seq<GlobalVariable>, v: GlobalVariable, k: string)
    ensures WithKey(vars + [v], k) == WithKey(vars, k) + (if v.key == Some(k) then [v] else [])
    decreases |vars|
  {
    if vars != [] {
      assert (vars + [v])[1..] == vars[1..] + [v];
      WithKeyAppend(vars[1..], v, k);
    }
  }

  lemma {:induction false} WithKeyOfWithout(vars: seq<GlobalVariable>, k: string, j: string)
    ensures WithKey(WithoutKey(vars, k), j) == if j == k then [] else WithKey(vars, j)
    decreases |vars|
  {
    if vars != [] {
      WithKeyOfWithout(vars[1..], k, j);
      if vars[0].key != Some(k) {
        assert ([vars[0]] + WithoutKey(vars[1..], k))[1..] == WithoutKey(vars[1..], k);
      }
    }
  }

  /** After an upsert the list holds exactly one entry with its key, that entry is last, and every other key keeps its entries in order. */
  lemma UpsertLeavesOneEntry(kv: map<string, Stored>, variable: GlobalVariable, other: string)
    requires UpsertEffect(kv, variable).result.Ok?
    ensures var vars := AllVariables(UpsertEffect(kv, variable).kv);
      vars.Ok? && |vars.value| > 0 && vars.value[|vars.value| - 1] == variable
      && WithKey(vars.value, variable.key.value) == [variable]
      && (other != variable.key.value ==> WithKey(vars.value, other) == WithKey(AllVariables(kv).value, other))
  {
    var k := variable.key.value;
    var prior := AllVariables(kv).value;
    WithKeyAppend(WithoutKey(prior, k), variable, k);
    WithKeyOfWithout(prior, k, k);
    WithKeyAppend(WithoutKey(prior, k), variable, other);
    WithKeyOfWithout(prior, k, other);
  }

  lemma {:induction false} WithoutKeyAppend(vars: seq<GlobalVariable>, v: GlobalVariable, k: string)
    ensures WithoutKey(vars + [v], k) == WithoutKey(vars, k) + (if v.key == Some(k) then [] else [v])
    decreases |vars|
  {
    if vars != [] {
      assert (vars + [v])[1..] == vars[1..] + [v];
      WithoutKeyAppend(vars[1..], v, k);
    }
  }

  lemma {:induction false} WithoutKeyTwice(vars: seq<GlobalVariable>, k: string)
    ensures WithoutKey(WithoutKey(vars, k), k) == WithoutKey(vars, k)
    decreases |vars|
  {
    if vars != [] {
      WithoutKeyTwice(vars[1..], k);
      if vars[0].key != Some(k) {
        assert ([vars[0]] + WithoutKey(vars[1..], k))[1..] == WithoutKey(vars[1..], k);
      }
    }
  }

  /** Upserting the same variable twice leaves the store as one upsert does. */
  lemma UpsertIdempotent(kv: map<string, Stored>, variable: GlobalVariable)
    requires UpsertEffect(kv, variable).result.Ok?
    ensures UpsertEffect(UpsertEffect(kv, variable).kv, variable) == UpsertEffect(kv, variable)
  {
    var k := variable.key.value;
    var prior := AllVariables(kv).value;
    var once := WithoutKey(prior, k) + [variable];
    WithoutKeyAppend(WithoutKey(prior, k), variable, k);
    WithoutKeyTwice(prior, k);
    assert WithoutKey(once, k) + [variable] == once;
    assert !HasNullKey(once) by {
      forall i | 0 <= i < |once| ensures once[i].key.Some? {
        assert once[i] in once;
        if i < |once| - 1 {
          assert once[i] in WithoutKey(prior, k);
          var j :| 0 <= j < |prior| && prior[j] == once[i];
        }
      }
    }
  }

  /** `saveAll` then `getAll` gives the list back. */
  lemma SaveAllThenGetAll(kv: map<string, Stored>, variables: seq<GlobalVariable>)
    ensures AllVariables(kv[ENV_KEY := VariableList(variables)]) == Ok(variables)
  {
  }

  /** The upserted value is found under any spelling of its key, unless an older entry whose key differs only in case comes first. */
  lemma UpsertThenLookup(kv: map<string, Stored>, variable: GlobalVariable, spelling: string)
    requires UpsertEffect(kv, variable).result.Ok? && variable.value != Null
    requires EqualsIgnoreCase(spelling, variable.key.value)
    requires forall v | v in AllVariables(kv).value && v.key.Some? :: !EqualsIgnoreCase(v.key.value, spelling)
    ensures ValueByKey(UpsertEffect(kv, variable).kv, spelling) == Ok(Some(variable.value))
  {
    var k := variable.key.value;
    var rest := WithoutKey(AllVariables(kv).value, k);
    assert EqualsIgnoreCase(k, spelling);
    FirstValueAppend(rest, variable, spelling);
  }

  lemma {:induction false} FirstValueAppend(vars: seq<GlobalVariable>, v: GlobalVariable, key: string)
    requires forall i | 0 <= i < |vars| :: vars[i].key.Some? && !EqualsIgnoreCase(vars[i].key.value, key)
    ensures FirstValue(vars + [v], key) == FirstValue([v], key)
    decreases |vars|
  {
    if vars != [] {
      assert (vars + [v])[1..] == vars[1..] + [v];
      FirstValueAppend(vars[1..], v, key);
    }
  }

  /**
   * The lookup ignores case but the upsert replaces exact keys only: after
   * `FOO` = 1 and then an upsert of `foo` = 2, looking up `foo` finds 1.
   */
  lemma CaseVariantShadowsUpsert()
    ensures var kv := map[ENV_KEY := VariableList([GlobalVariable(Some("FOO"), Int(1))])];
      ValueByKey(UpsertEffect(kv, GlobalVariable(Some("foo"), Int(2))).kv, "foo") == Ok(Some(Int(1)))
  {
    var prior := [GlobalVariable(Some("FOO"), Int(1))];
    var foo := GlobalVariable(Some("foo"), Int(2));
    assert !IsBlank("foo") by { assert !IsJavaWhitespace('f'); }
    assert !HasNullKey(prior);
    assert WithoutKey(prior, "foo") == prior by {
      assert prior[0].key != Some("foo") by { assert "FOO"[0] != "foo"[0]; }
    }
    assert EqualsIgnoreCase("FOO", "foo") by {
      assert forall i | 0 <= i < 3 :: LowerChar("FOO"[i]) == LowerChar("foo"[i]);
    }
  }

  // ---------------------------------------------- the upsert as intended

  /** The entries whose key differs from k even ignoring case, in their order, with those without a key. */
  function WithoutFoldedKey(vars: seq<GlobalVariable>, k: string): (r: seq<GlobalVariable>)
    ensures forall v | v in r :: v in vars && (v.key.Some? ==> !EqualsIgnoreCase(v.key.value, k))
    ensures forall v | v in vars && (v.key.Some? ==> !EqualsIgnoreCase(v.key.value, k)) :: v in r
  {
    if vars == [] then []
    else if vars[0].key.Some? && EqualsIgnoreCase(vars[0].key.value, k) then WithoutFoldedKey(vars[1..], k)
    else [vars[0]] + WithoutFoldedKey(vars[1..], k)
  }

  /**
   * `upsert` as evidently intended: it replaces the entries the lookup
   * would find, comparing keys ignoring case as `getValueByKey` does;
   * it fails exactly when and as `upsert` does.
   */
  function FoldedUpsertEffect(kv: map<string, Stored>, variable: GlobalVariable): (e: Effect<()>)
    ensures e.result == UpsertEffect(kv, variable).result
    ensures e.result.Err? ==> e.kv == kv
    ensures e.result.Ok? ==> ENV_KEY in e.kv && e.kv.Keys == kv.Keys + {ENV_KEY} && forall k | k in kv && k != ENV_KEY :: e.kv[k] == kv[k]
  {
    var e := UpsertEffect(kv, variable);
    if e.result.Err? then e
    else Effect(kv[ENV_KEY := VariableList(WithoutFoldedKey(AllVariables(kv).value, variable.key.value) + [variable])], Ok(()))
  }

  /** After the intended upsert, every spelling of the key finds the new value, whatever was stored before. */
  lemma FoldedUpsertThenLookup(kv: map<string, Stored>, variable: GlobalVariable, spelling: string)
    requires FoldedUpsertEffect(kv, variable).result.Ok? && variable.value != Null
    requires EqualsIgnoreCase(spelling, variable.key.value)
    ensures ValueByKey(FoldedUpsertEffect(kv, variable).kv, spelling) == Ok(Some(variable.value))
  {
    var k := variable.key.value;
    var prior := AllVariables(kv).value;
    var rest := WithoutFoldedKey(prior, k);
    assert AllVariables(FoldedUpsertEffect(kv, variable).kv) == Ok(rest + [variable]);
    forall i | 0 <= i < |rest| ensures rest[i].key.Some? && !EqualsIgnoreCase(rest[i].key.value, spelling) {
      assert rest[i] in rest;
      var j :| 0 <= j < |prior| && prior[j] == rest[i];
    }
    FirstValueAppend(rest, variable, spelling);
  }
}
