/**
 * The id sets the storage generation keeps under single keys (a group's
 * flows, all group ids, all broker ids, a Kafka trigger's flows), and the
 * shape of the `findAll` loops that walk such a set, whose iteration order
 * Java leaves unspecified.
 */
module IdSets {
  import opened JavaLang
  import opened RocksStore

  /** `readValue(bytes, Set<UUID>)`: a JSON array of ids, whether it was written as a set or a list. */
  function SetOf(s: Stored): (r: Option<set<string>>)
    ensures s.IdSet? ==> r == Some(s.idSet)
    ensures s.IdList? ==> r == Some(Members(s.idList))
    ensures !s.IdSet? && !s.IdList? ==> r.None?
  {
    match s
    case IdSet(ids) => Some(ids)
    case IdList(ids) => Some(Members(ids))
    case _ => None
  }

  /** `readSet`: an absent key is the empty set; bytes that are no id array make the mapper throw. */
  function ReadSet(kv: map<string, Stored>, key: string): (r: Result<set<string>>)
    ensures key !in kv ==> r == Ok({})
    ensures key in kv ==> (r.Ok? <==> SetOf(kv[key]).Some?)
    ensures key in kv && r.Ok? ==> r.value == SetOf(kv[key]).value
    ensures r.Err? ==> r.error == Decode
  {
    if key !in kv then Ok({})
    else match SetOf(kv[key]) case None => Err(Decode) case Some(ids) => Ok(ids)
  }

  /** `readIds` of the group and broker storages: as `readSet`, but a failed read raises IllegalStateException. */
  function ReadIds(kv: map<string, Stored>, key: string): (r: Result<set<string>>)
    ensures r.Err? ==> r.error == IllegalState
    ensures r.Ok? <==> ReadSet(kv, key).Ok?
    ensures r.Ok? ==> r.value == ReadSet(kv, key).value
  {
    match ReadSet(kv, key) case Err(_) => Err(IllegalState) case Ok(ids) => Ok(ids)
  }

  /** `updateIds`: read the set, add or remove one id, and always write the set back. */
  function UpdatedIds(kv: map<string, Stored>, key: string, add: bool, id: string): (e: Effect<()>)
    ensures e.result.Ok? <==> ReadIds(kv, key).Ok?
    ensures e.result.Err? ==> e.kv == kv && e.result.error == IllegalState
    ensures e.result.Ok? ==> e.kv == kv[key := IdSet(if add then ReadIds(kv, key).value + {id} else ReadIds(kv, key).value - {id})]
  {
    match ReadIds(kv, key)
    case Err(err) => Effect(kv, Err(err))
    case Ok(ids) => Effect(kv[key := IdSet(if add then ids + {id} else ids - {id})], Ok(()))
  }

  /** The record at a key, as the point read sees it. */
  function StoredAt(kv: map<string, Stored>, key: string): (r: Option<Stored>)
    ensures r.Some? <==> key in kv
  {
    if key in kv then Some(kv[key]) else None
  }

  /**
   * A list holding, in some order, the record each id resolves to, with
   * ids that resolve to nothing dropped: what a for-each over a HashSet of
   * ids collecting `findById(id).ifPresent(result::add)` produces.
   */
  ghost predicate ListsExactly<T(!new)>(kv: map<string, Stored>, r: seq<T>, ids: set<string>, read: (map<string, Stored>, string) -> Result<Option<T>>) {
    |r| <= |ids| && forall x :: x in r <==> exists id | id in ids :: read(kv, id) == Ok(Some(x))
  }

  /** One more id visited: its record, if any, is appended. */
  lemma ListsExactlyStep<T(!new)>(kv: map<string, Stored>, r: seq<T>, done: set<string>, id: string, read: (map<string, Stored>, string) -> Result<Option<T>>)
    requires ListsExactly(kv, r, done, read) && id !in done && read(kv, id).Ok?
    ensures var r' := if read(kv, id).value.Some? then r + [read(kv, id).value.value] else r;
      ListsExactly(kv, r', done + {id}, read)
  {
    var r' := if read(kv, id).value.Some? then r + [read(kv, id).value.value] else r;
    assert |done + {id}| == |done| + 1;
    forall x | x in r' ensures exists i | i in done + {id} :: read(kv, i) == Ok(Some(x)) {
      if x !in r {
        assert read(kv, id) == Ok(Some(x));
      }
    }
  }
}
