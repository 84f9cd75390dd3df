/**
 * RocksDbRepository: the generic store access of the repository
 * generation. Keys are built as `prefix:key`; reads swallow a missing key
 * and a value of the wrong type alike as "empty"; lists of ids are kept
 * with read-modify-write; a prefix scan walks the iterator from the seek
 * position while keys carry the prefix.
 */
module RocksDbRepository {
  import opened JavaLang
  import opened KeyOrder
  import opened RocksStore

  /** `prefix + ":" + key`. */
  function BuildKey(prefix: string, key: string): (k: string)
    ensures StartsWith(k, prefix + ":")
    ensures |k| == |prefix| + 1 + |key| && k[|prefix| + 1..] == key
  {
    assert (prefix + ":" + key)[..|prefix| + 1] == prefix + ":";
    prefix + ":" + key
  }

  /** Two prefixed keys with the same prefix are equal only for the same key. */
  lemma BuildKeyInjective(prefix: string, a: string, b: string)
    requires BuildKey(prefix, a) == BuildKey(prefix, b)
    ensures a == b
  {
    assert a == BuildKey(prefix, a)[|prefix| + 1..];
  }

  // ------------------------------------------------------------ the lists

  /** `List.removeIf(item -> item.equals(x))`. */
  function RemoveAll(l: seq<string>, x: string): (r: seq<string>)
    ensures x !in r
    ensures forall y | y != x :: multiset(r)[y] == multiset(l)[y]
    ensures |r| <= |l|
  {
    if l == [] then []
    else
      assert l == [l[0]] + l[1..];
      (if l[0] == x then [] else [l[0]]) + RemoveAll(l[1..], x)
  }

  /** Removing a value that is not there leaves the list as it is. */
  lemma {:induction false} RemoveAllAbsent(l: seq<string>, x: string)
    requires x !in l
    ensures RemoveAll(l, x) == l
    decreases |l|
  {
    if l != [] {
      RemoveAllAbsent(l[1..], x);
      assert l == [l[0]] + l[1..];
    }
  }

  /** What `saveToList` writes: the list without x, then x. */
  function WithAppended(l: seq<string>, x: string): (r: seq<string>)
    ensures |r| >= 1 && r[|r| - 1] == x
  {
    RemoveAll(l, x) + [x]
  }

  /** x is in the written list exactly once, as its last element; the others keep their order and counts. */
  lemma WithAppendedContents(l: seq<string>, x: string)
    ensures var r := WithAppended(l, x);
      multiset(r)[x] == 1
      && r[..|r| - 1] == RemoveAll(l, x)
      && forall y | y != x :: multiset(r)[y] == multiset(l)[y]
  {
    var r := WithAppended(l, x);
    assert r[..|r| - 1] == RemoveAll(l, x);
    assert r == r[..|r| - 1] + [x];
  }

  /** A list that already ends in its only copy of x is not changed by `saveToList`. */
  lemma SaveToListIdempotent(l: seq<string>, x: string)
    ensures WithAppended(WithAppended(l, x), x) == WithAppended(l, x)
  {
    var r := WithAppended(l, x);
    var q := RemoveAll(l, x);
    RemoveAllAbsent(q, x);
    assert r == q + [x];
    RemoveAllLast(q, x);
  }

  lemma {:induction false} RemoveAllLast(q: seq<string>, x: string)
    requires x !in q
    ensures RemoveAll(q + [x], x) == q
    decreases |q|
  {
    if q == [] {
      assert [x][1..] == [];
    } else {
      assert (q + [x])[1..] == q[1..] + [x];
      RemoveAllLast(q[1..], x);
      assert q == [q[0]] + q[1..];
    }
  }

  /** `List.remove(Object)`: drop the first occurrence only. */
  function RemoveFirst(l: seq<string>, x: string): (r: seq<string>)
    ensures x !in l ==> r == l
    ensures x in l ==> |r| == |l| - 1 && multiset(r) == multiset(l) - multiset{x}
    ensures x in l ==> var i := FirstIndex(l, x); r == l[..i] + l[i + 1..]
  {
    if x !in l then l
    else
      var i := FirstIndex(l, x);
      assert l == l[..i] + [x] + l[i + 1..];
      l[..i] + l[i + 1..]
  }

  function FirstIndex(l: seq<string>, x: string): (i: nat)
    requires x in l
    ensures i < |l| && l[i] == x && x !in l[..i]
  {
    if l[0] == x then 0 else
      var k := FirstIndex(l[1..], x);
      assert l[1..][..k] == l[1..k + 1];
      k + 1
  }

  // ------------------------------------------------- the store, as values

  /** `findByKey`: the decoded value, empty when the key is absent or the value does not decode. */
  function Find<T>(kv: map<string, Stored>, key: string, decode: Stored -> Option<T>): (r: Option<T>)
    ensures key !in kv ==> r.None?
    ensures key in kv ==> r == decode(kv[key])
  {
    if key in kv then decode(kv[key]) else None
  }

  /** `findListByKey(key, UUID.class or String.class)`: the stored list, or the empty list. */
  function ListAt(kv: map<string, Stored>, key: string): (l: seq<string>)
    ensures key in kv && kv[key].IdList? ==> l == kv[key].idList
    ensures !(key in kv && kv[key].IdList?) ==> l == []
  {
    match Find(kv, key, AsIdList) case Some(l) => l case None => []
  }

  /** The decoded values at these keys, in order; one that does not decode fails the whole read. */
  function DecodeAll<T>(kv: map<string, Stored>, ks: seq<string>, decode: Stored -> Option<T>): (r: Result<seq<T>>)
    ensures r.Ok? ==> |r.value| == |ks|
    ensures r.Err? ==> r.error == Runtime
  {
    if ks == [] then Ok([])
    else
      var last := ks[|ks| - 1];
      match DecodeAll(kv, ks[..|ks| - 1], decode)
      case Err(e) => Err(e)
      case Ok(vs) =>
        if last !in kv then Err(Runtime)
        else match decode(kv[last])
          case None => Err(Runtime)
          case Some(v) => Ok(vs + [v])
  }

  /** The read succeeds exactly when every key is present and decodes, and then lists the decoded values in key order. */
  lemma {:induction false} DecodeAllMeaning<T>(kv: map<string, Stored>, ks: seq<string>, decode: Stored -> Option<T>)
    ensures var r := DecodeAll(kv, ks, decode);
      r.Ok? <==> forall i | 0 <= i < |ks| :: ks[i] in kv && decode(kv[ks[i]]).Some?
    ensures var r := DecodeAll(kv, ks, decode);
      r.Ok? ==> forall i | 0 <= i < |ks| :: ks[i] in kv && decode(kv[ks[i]]) == Some(r.value[i])
    decreases |ks|
  {
    if ks != [] {
      var init := ks[..|ks| - 1];
      DecodeAllMeaning(kv, init, decode);
      assert forall i | 0 <= i < |init| :: init[i] == ks[i];
    }
  }

  class Repository {
    const db: RocksDb

    constructor (db: RocksDb)
      ensures this.db == db
    {
      this.db := db;
    }

    method FindByKey<T>(key: string, decode: Stored -> Option<T>) returns (r: Option<T>)
      ensures r == Find(db.kv, key, decode)
    {
      var bytes := db.Get(key);
      if bytes.None? {
        return None;
      }
      r := decode(bytes.value);
    }

    /** `findByKey(prefix, key, type)`: the read at `prefix:key`. */
    method FindByPrefixedKey<T>(prefix: string, key: string, decode: Stored -> Option<T>) returns (r: Option<T>)
      ensures r == Find(db.kv, BuildKey(prefix, key), decode)
    {
      r := FindByKey(BuildKey(prefix, key), decode);
    }

    method FindListByKey(key: string) returns (l: seq<string>)
      ensures l == ListAt(db.kv, key)
    {
      var found := FindByKey(key, AsIdList);
      l := if found.Some? then found.value else [];
    }

    method Save(key: string, value: Stored)
      requires db.Valid()
      modifies db
      ensures db.Valid() && db.kv == old(db.kv)[key := value]
    {
      db.Put(key, value);
    }

    method SavePrefixed(prefix: string, key: string, value: Stored)
      requires db.Valid()
      modifies db
      ensures db.Valid() && db.kv == old(db.kv)[BuildKey(prefix, key) := value]
    {
      Save(BuildKey(prefix, key), value);
    }

    method SaveToList(key: string, x: string)
      requires db.Valid()
      modifies db
      ensures db.Valid() && db.kv == old(db.kv)[key := IdList(WithAppended(ListAt(old(db.kv), key), x))]
    {
      var all := FindListByKey(key);
      all := RemoveAll(all, x) + [x];
      Save(key, IdList(all));
    }

    /** The list is written back only when x was in it. */
    method DeleteFromList(key: string, x: string)
      requires db.Valid()
      modifies db
      ensures db.Valid()
      ensures x in ListAt(old(db.kv), key) ==> db.kv == old(db.kv)[key := IdList(RemoveFirst(ListAt(old(db.kv), key), x))]
      ensures x !in ListAt(old(db.kv), key) ==> db.kv == old(db.kv)
    {
      var all := FindListByKey(key);
      if x in all {
        Save(key, IdList(RemoveFirst(all, x)));
      }
    }

    /** The values of every key with this prefix, in ascending key order. */
    method FindAll<T>(prefix: string, decode: Stored -> Option<T>) returns (r: Result<seq<T>>)
      requires db.Valid()
      ensures r == DecodeAll(db.kv, KeysWithPrefix(db.keys, prefix), decode)
    {
      ScanIsKeysWithPrefix(db.keys, prefix);
      var s := db.Seek(prefix);
      r := ScanDecode(db.kv, db.keys, s, prefix, decode);
    }

    method Delete(key: string)
      requires db.Valid()
      modifies db
      ensures db.Valid() && db.kv == old(db.kv) - {key}
    {
      db.Delete(key);
    }

    /** `delete(prefix, key)`: removes `prefix:key`. */
    method DeletePrefixed(prefix: string, key: string)
      requires db.Valid()
      modifies db
      ensures db.Valid() && db.kv == old(db.kv) - {BuildKey(prefix, key)}
    {
      Delete(BuildKey(prefix, key));
    }

    /** Batches a delete of every key with the prefix and returns how many there were. */
    method DeleteByPrefix(prefix: string) returns (deleted: int)
      requires db.Valid()
      modifies db
      ensures db.Valid()
      ensures deleted == |PrefixedKeys(old(db.kv), prefix)|
      ensures db.kv == WithoutPrefix(old(db.kv), prefix)
    {
      var keys := db.keys;
      var s := db.Seek(prefix);
      var i := s;
      var batch: seq<string> := [];
      deleted := 0;
      while i < |keys| && StartsWith(keys[i], prefix)
        invariant s <= i <= |keys|
        invariant PrefixRunEnd(keys, prefix, i) == PrefixRunEnd(keys, prefix, s)
        invariant batch == keys[s..i] && deleted == |batch|
        decreases |keys| - i
      {
        batch := batch + [keys[i]];
        deleted := deleted + 1;
        i := i + 1;
      }
      ScanRun(db, prefix);
      if deleted > 0 {
        db.DeleteBatch(batch);
      }
    }
  }

  /**
   * The iterator loop of `findAll`: from the seek position, decode each key
   * while it carries the prefix; the first value that does not decode
   * ends the read with a RuntimeException.
   */
  method ScanDecode<T>(kv: map<string, Stored>, keys: seq<string>, s: nat, prefix: string, decode: Stored -> Option<T>) returns (r: Result<seq<T>>)
    requires s <= |keys| && forall k | k in keys :: k in kv
    ensures r == DecodeAll(kv, keys[s..PrefixRunEnd(keys, prefix, s)], decode)
  {
    ghost var e := PrefixRunEnd(keys, prefix, s);
    var i := s;
    var results: seq<T> := [];
    while i < |keys| && StartsWith(keys[i], prefix)
      invariant s <= i <= e
      invariant PrefixRunEnd(keys, prefix, i) == e
      invariant DecodeAll(kv, keys[s..i], decode) == Ok(results)
      decreases |keys| - i
    {
      var key := keys[i];
      var value := decode(kv[key]);
      DecodeAllStep(kv, keys, s, i, decode);
      if value.None? {
        PrefixDecodeFails(kv, keys[s..i + 1], keys[s..e], decode);
        return Err(Runtime);
      }
      results := results + [value.value];
      i := i + 1;
    }
    r := Ok(results);
  }

  /** The run a scan collects is the prefixed keys, in order, and there are as many as the map holds. */
  lemma ScanRun(db: RocksDb, p: string)
    requires db.Valid()
    ensures var s := SeekIndex(db.keys, p); var e := PrefixRunEnd(db.keys, p, s);
      db.keys[s..e] == KeysWithPrefix(db.keys, p)
      && Members(db.keys[s..e]) == PrefixedKeys(db.kv, p)
      && |db.keys[s..e]| == |PrefixedKeys(db.kv, p)|
  {
    ScanVisitsPrefixedKeys(db, p);
  }

  lemma DecodeAllStep<T>(kv: map<string, Stored>, keys: seq<string>, s: nat, i: nat, decode: Stored -> Option<T>)
    requires s <= i < |keys| && keys[i] in kv
    ensures DecodeAll(kv, keys[s..i + 1], decode) ==
      match DecodeAll(kv, keys[s..i], decode)
      case Err(e) => Err(e)
      case Ok(vs) => match decode(kv[keys[i]]) case None => Err(Runtime) case Some(v) => Ok(vs + [v])
  {
    assert keys[s..i + 1][..i - s] == keys[s..i];
  }

  /** A value that does not decode within a prefix of the scan makes the whole scan fail. */
  lemma {:induction false} PrefixDecodeFails<T>(kv: map<string, Stored>, pre: seq<string>, all: seq<string>, decode: Stored -> Option<T>)
    requires |pre| <= |all| && all[..|pre|] == pre
    requires DecodeAll(kv, pre, decode).Err?
    ensures DecodeAll(kv, all, decode).Err?
    decreases |all|
  {
    if |all| > |pre| {
      var shorter := all[..|all| - 1];
      assert shorter[..|pre|] == pre;
      PrefixDecodeFails(kv, pre, shorter, decode);
    } else {
      assert all == pre;
    }
  }
}
