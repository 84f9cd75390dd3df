/**
 * DebugRocksService: raw views of the store for operators. Dumps walk the
 * iterator in key order and render each value as a JSON tree, or as the
 * text `[BINARY] size=<n>` when the bytes are not JSON; `deleteByPrefix`
 * collects the keys first and then deletes them one at a time.
 */
module DebugRocksService {
  import opened JavaLang
  import opened RocksStore
  import opened KeyOrder

  const BINARY_LABEL: string := "[BINARY] size="

  /** `readValue`: `readTree`, falling back to a text node with the byte count. */
  function ReadValue(s: Stored): (n: JsonNode)
    ensures n.Tree? <==> !s.Binary?
  {
    if s.Binary? then TextNode(BINARY_LABEL + NatToString(s.size)) else Tree(s)
  }

  /** The fallback text names the byte count: the digits after the label read back as the size. */
  lemma BinaryLabelReadsBack(s: Stored)
    requires s.Binary?
    ensures var n := ReadValue(s);
      n.TextNode? && StartsWith(n.text, BINARY_LABEL) && AllDigits(n.text[|BINARY_LABEL|..])
      && DigitsValue(n.text[|BINARY_LABEL|..]) == s.size
  {
    var n := ReadValue(s);
    assert n.text[|BINARY_LABEL|..] == NatToString(s.size);
    DigitsOfNatToString(s.size);
  }

  /** Each listed key with its rendered value, in list order, as a LinkedHashMap keeps them. */
  function Dumped(kv: map<string, Stored>, ks: seq<string>): seq<(string, JsonNode)>
    requires forall k | k in ks :: k in kv
  {
    seq(|ks|, i requires 0 <= i < |ks| => (ks[i], ReadValue(kv[ks[i]])))
  }

  /** What `deleteByPrefix` reports. */
  datatype DeleteReport = DeleteReport(prefix: string, scanned: nat, deleted: nat)

  /** The position of the first key whose delete throws, or the length when none does. */
  function FirstFailure(ks: seq<string>, fails: string -> bool): (j: nat)
    ensures j <= |ks| && (j < |ks| ==> fails(ks[j]))
    ensures forall i | 0 <= i < j :: !fails(ks[i])
  {
    if ks == [] || fails(ks[0]) then 0 else 1 + FirstFailure(ks[1..], fails)
  }

  class Service {
    const db: RocksDb

    constructor (db: RocksDb)
      ensures this.db == db
    {
      this.db := db;
    }

    method DumpAll() returns (r: seq<(string, JsonNode)>)
      requires db.Valid()
      ensures r == Dumped(db.kv, db.keys)
    {
      r := [];
      var i := 0;
      while i < |db.keys|
        invariant 0 <= i <= |db.keys|
        invariant r == Dumped(db.kv, db.keys[..i])
      {
        var key := db.keys[i];
        r := r + [(key, ReadValue(db.kv[key]))];
        assert db.keys[..i + 1] == db.keys[..i] + [key];
        i := i + 1;
      }
      assert db.keys[..i] == db.keys;
    }

    method DumpByPrefix(prefix: string) returns (r: seq<(string, JsonNode)>)
      requires db.Valid()
      ensures r == Dumped(db.kv, KeysWithPrefix(db.keys, prefix))
    {
      ScanIsKeysWithPrefix(db.keys, prefix);
      var s := db.Seek(prefix);
      r := DumpRun(db.kv, db.keys, s, prefix);
    }

    /** `getByKey`: null for an absent key, the rendered value otherwise. */
    method GetByKey(key: string) returns (r: Option<JsonNode>)
      ensures key !in db.kv ==> r.None?
      ensures key in db.kv ==> r == Some(ReadValue(db.kv[key]))
    {
      var v := db.Get(key);
      if v.None? {
        return None;
      }
      return Some(ReadValue(v.value));
    }

    /**
     * `deleteByPrefix`; `fails` says which deletes RocksDB rejects. A
     * rejected delete throws IllegalStateException with every earlier delete
     * already applied.
     */
    method DeleteByPrefix(prefix: string, fails: string -> bool) returns (r: Result<DeleteReport>)
      requires db.Valid()
      modifies db
      ensures db.Valid()
      ensures var run := KeysWithPrefix(old(db.keys), prefix); var j := FirstFailure(run, fails);
        db.kv == old(db.kv) - Members(run[..j])
        && (j == |run| ==> r == Ok(DeleteReport(prefix, |run|, |run|)))
        && (j < |run| ==> r == Err(IllegalState))
    {
      ScanIsKeysWithPrefix(db.keys, prefix);
      var keysToDelete := CollectRun(db.keys, db.Seek(prefix), prefix);
      var scanned := |keysToDelete|;
      var deleted := DeleteEach(keysToDelete, fails);
      if deleted < scanned {
        return Err(IllegalState);
      }
      return Ok(DeleteReport(prefix, scanned, deleted));
    }

    /** The delete loop of `deleteByPrefix`: one key at a time, stopping at the first rejected delete. */
    method DeleteEach(keysToDelete: seq<string>, fails: string -> bool) returns (deleted: nat)
      requires db.Valid()
      modifies db
      ensures db.Valid()
      ensures deleted == FirstFailure(keysToDelete, fails)
      ensures db.kv == old(db.kv) - Members(keysToDelete[..deleted])
    {
      deleted := 0;
      while deleted < |keysToDelete|
        invariant 0 <= deleted <= FirstFailure(keysToDelete, fails)
        invariant db.Valid() && db.kv == old(db.kv) - Members(keysToDelete[..deleted])
      {
        var k := keysToDelete[deleted];
        if fails(k) {
          return;
        }
        db.Delete(k);
        assert keysToDelete[..deleted + 1] == keysToDelete[..deleted] + [k];
        MembersAppend(keysToDelete[..deleted], k);
        deleted := deleted + 1;
      }
    }
  }

  /** The dump loop of `dumpByPrefix`: from the seek position, while the key carries the prefix. */
  method DumpRun(kv: map<string, Stored>, keys: seq<string>, s: nat, prefix: string) returns (r: seq<(string, JsonNode)>)
    requires s <= |keys| && forall k | k in keys :: k in kv
    ensures r == Dumped(kv, keys[s..PrefixRunEnd(keys, prefix, s)])
  {
    ghost var e := PrefixRunEnd(keys, prefix, s);
    r := [];
    var i := s;
    while i < |keys|
      invariant s <= i <= e
      invariant PrefixRunEnd(keys, prefix, i) == e
      invariant r == Dumped(kv, keys[s..i])
      decreases |keys| - i
    {
      var key := keys[i];
      if !StartsWith(key, prefix) {
        break;
      }
      r := r + [(key, ReadValue(kv[key]))];
      assert keys[s..i + 1] == keys[s..i] + [key];
      i := i + 1;
    }
  }

  /** The collecting loop of `deleteByPrefix`. */
  method CollectRun(keys: seq<string>, s: nat, prefix: string) returns (run: seq<string>)
    requires s <= |keys|
    ensures run == keys[s..PrefixRunEnd(keys, prefix, s)]
  {
    ghost var e := PrefixRunEnd(keys, prefix, s);
    run := [];
    var i := s;
    while i < |keys|
      invariant s <= i <= e
      invariant PrefixRunEnd(keys, prefix, i) == e
      invariant run == keys[s..i]
      decreases |keys| - i
    {
      var k := keys[i];
      if !StartsWith(k, prefix) {
        break;
      }
      run := run + [k];
      i := i + 1;
    }
  }

  // ------------------------------------------------------------ properties

  /** `dumpAll` lists every stored key once, in ascending order, each with its rendered value. */
  lemma DumpAllListsStore(db: RocksDb)
    requires db.Valid()
    ensures var r := Dumped(db.kv, db.keys);
      (forall k :: k in db.kv <==> exists i | 0 <= i < |r| :: r[i].0 == k)
      && (forall i, j | 0 <= i < j < |r| :: Less(r[i].0, r[j].0))
      && (forall i | 0 <= i < |r| :: r[i].0 in db.kv && r[i].1 == ReadValue(db.kv[r[i].0]))
  {
    var r := Dumped(db.kv, db.keys);
    forall k | k in db.kv ensures exists i | 0 <= i < |r| :: r[i].0 == k {
      var i :| 0 <= i < |db.keys| && db.keys[i] == k;
      assert r[i].0 == k;
    }
  }

  /** `dumpByPrefix` lists exactly the stored keys with the prefix, in ascending order. */
  lemma DumpByPrefixListsPrefixed(db: RocksDb, prefix: string)
    requires db.Valid()
    ensures var r := Dumped(db.kv, KeysWithPrefix(db.keys, prefix));
      (forall k :: k in PrefixedKeys(db.kv, prefix) <==> exists i | 0 <= i < |r| :: r[i].0 == k)
      && (forall i, j | 0 <= i < j < |r| :: Less(r[i].0, r[j].0))
      && |r| == |PrefixedKeys(db.kv, prefix)|
  {
    var ks := KeysWithPrefix(db.keys, prefix);
    ScanVisitsPrefixedKeys(db, prefix);
    var s := SeekIndex(db.keys, prefix);
    SliceSorted(db.keys, s, PrefixRunEnd(db.keys, prefix, s));
    DumpedListsKeys(db.kv, ks, PrefixedKeys(db.kv, prefix));
  }

  /** Dumping a sorted list of stored keys lists exactly those keys, in the same order. */
  lemma DumpedListsKeys(kv: map<string, Stored>, ks: seq<string>, members: set<string>)
    requires Sorted(ks) && (forall k | k in ks :: k in kv) && Members(ks) == members && |ks| == |members|
    ensures var r := Dumped(kv, ks);
      (forall k :: k in members <==> exists i | 0 <= i < |r| :: r[i].0 == k)
      && (forall i, j | 0 <= i < j < |r| :: Less(r[i].0, r[j].0))
      && |r| == |members|
  {
    var r := Dumped(kv, ks);
    forall k | k in members ensures exists i | 0 <= i < |r| :: r[i].0 == k {
      assert k in ks;
      var i :| 0 <= i < |ks| && ks[i] == k;
      assert r[i].0 == k;
    }
  }

  /** With no failing delete, `scanned == deleted` and no key with the prefix is left; other keys are untouched. */
  lemma DeleteByPrefixClears(db: RocksDb, prefix: string)
    requires db.Valid()
    ensures db.kv - Members(KeysWithPrefix(db.keys, prefix)) == WithoutPrefix(db.kv, prefix)
  {
    ScanVisitsPrefixedKeys(db, prefix);
  }

  /** A failing delete leaves the keys before it deleted and the rest in place, so the operation is not atomic. */
  lemma DeleteByPrefixPartial(kv: map<string, Stored>, run: seq<string>, fails: string -> bool)
    requires Sorted(run) && forall k | k in run :: k in kv
    requires FirstFailure(run, fails) < |run|
    ensures var j := FirstFailure(run, fails); var kv' := kv - Members(run[..j]);
      run[j] in kv' && (forall i | 0 <= i < j :: run[i] !in kv')
  {
    var j := FirstFailure(run, fails);
    assert run[j] !in run[..j] by {
      forall i | 0 <= i < j ensures run[i] != run[j] {
        SortedDistinct(run, i, j);
      }
    }
  }
}
