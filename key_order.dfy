/**
 * The order RocksDB keeps its keys in. Keys are written as UTF-8 and
 * compared byte by byte, which is the lexicographic order of their code
 * points; `Less` is that order on Dafny strings. The lemma `PrefixRun`
 * is what every prefix scan relies on: in a sorted key list, the keys
 * that start with p form one contiguous run beginning at the seek
 * position of p.
 */
module KeyOrder {
  import opened JavaLang

  /** Strict lexicographic order: a proper prefix, or smaller at the first difference. */
  predicate Less(a: string, b: string)
    decreases |a|
  {
    if a == [] then b != []
    else if b == [] then false
    else if a[0] != b[0] then a[0] < b[0]
    else Less(a[1..], b[1..])
  }

  lemma {:induction false} LessIrreflexive(a: string)
    ensures !Less(a, a)
    decreases |a|
  {
    if a != [] { LessIrreflexive(a[1..]); }
  }

  lemma {:induction false} LessTransitive(a: string, b: string, c: string)
    requires Less(a, b) && Less(b, c)
    ensures Less(a, c)
    decreases |a|
  {
    if a != [] && b != [] && c != [] && a[0] == b[0] && b[0] == c[0] {
      LessTransitive(a[1..], b[1..], c[1..]);
    }
  }

  lemma {:induction false} LessTotal(a: string, b: string)
    ensures a == b || Less(a, b) || Less(b, a)
    decreases |a|
  {
    if a != [] && b != [] && a[0] == b[0] {
      LessTotal(a[1..], b[1..]);
      if a[1..] == b[1..] { assert a == [a[0]] + a[1..] && b == [b[0]] + b[1..]; }
    }
  }

  lemma LessAsymmetric(a: string, b: string)
    requires Less(a, b)
    ensures !Less(b, a)
  {
    if Less(b, a) {
      LessTransitive(a, b, a);
      LessIrreflexive(a);
    }
  }

  /** Every key is strictly below the next one. */
  predicate Sorted(keys: seq<string>) {
    forall i, j | 0 <= i < j < |keys| :: Less(keys[i], keys[j])
  }

  /** Where RocksIterator.seek(p) lands in a sorted key list: the first key not below p. */
  function SeekIndex(keys: seq<string>, p: string): (i: nat)
    ensures i <= |keys|
    ensures forall j | 0 <= j < i :: Less(keys[j], p)
    ensures i < |keys| ==> !Less(keys[i], p)
  {
    if keys == [] || !Less(keys[0], p) then 0 else 1 + SeekIndex(keys[1..], p)
  }

  lemma SeekIndexAll(keys: seq<string>, p: string)
    requires Sorted(keys)
    ensures forall j | SeekIndex(keys, p) <= j < |keys| :: !Less(keys[j], p)
  {
    var i := SeekIndex(keys, p);
    forall j | i <= j < |keys| ensures !Less(keys[j], p) {
      if Less(keys[j], p) && j > i {
        LessTransitive(keys[i], keys[j], p);
      }
    }
  }

  /** A string that starts with p is never below p. */
  lemma {:induction false} PrefixedNotBelow(k: string, p: string)
    requires StartsWith(k, p)
    ensures !Less(k, p)
    decreases |p|
  {
    if p != [] {
      assert k[1..][..|p| - 1] == p[1..];
      PrefixedNotBelow(k[1..], p[1..]);
    }
  }

  lemma StartsWithCons(k: string, p: string)
    requires k != [] && p != [] && k[0] == p[0]
    ensures StartsWith(k, p) <==> StartsWith(k[1..], p[1..])
  {
    if |p| <= |k| {
      assert k[..|p|] == [k[0]] + k[1..][..|p| - 1];
      assert p == [p[0]] + p[1..];
    }
  }

  /** A key at or above p that does not start with p lies above every string that does. */
  lemma {:induction false} PastPrefix(k: string, p: string, q: string)
    requires !Less(k, p) && !StartsWith(k, p) && StartsWith(q, p)
    ensures Less(q, k)
    decreases |p|
  {
    assert p != [];
    if k[0] == p[0] {
      assert q[0] == p[0];
      StartsWithCons(k, p);
      assert q[1..][..|p| - 1] == p[1..];
      PastPrefix(k[1..], p[1..], q[1..]);
    } else {
      assert q[0] == p[0];
    }
  }

  /** The run of keys with prefix p that a seek to p walks through. */
  function PrefixRunEnd(keys: seq<string>, p: string, from: nat): (e: nat)
    requires from <= |keys|
    ensures from <= e <= |keys|
    ensures forall j | from <= j < e :: StartsWith(keys[j], p)
    ensures e < |keys| ==> !StartsWith(keys[e], p)
    decreases |keys| - from
  {
    if from < |keys| && StartsWith(keys[from], p) then PrefixRunEnd(keys, p, from + 1) else from
  }

  /**
   * In a sorted key list, the keys that start with p are exactly those
   * from the seek position of p up to the first one that does not.
   */
  lemma PrefixRun(keys: seq<string>, p: string)
    requires Sorted(keys)
    ensures var s := SeekIndex(keys, p); var e := PrefixRunEnd(keys, p, s);
      forall j | 0 <= j < |keys| :: StartsWith(keys[j], p) <==> s <= j < e
  {
    var s := SeekIndex(keys, p);
    var e := PrefixRunEnd(keys, p, s);
    forall j | 0 <= j < |keys| ensures StartsWith(keys[j], p) <==> s <= j < e {
      if j < s && StartsWith(keys[j], p) {
        PrefixedNotBelow(keys[j], p);
      }
      if e < |keys| && e < j && StartsWith(keys[j], p) {
        SeekIndexAll(keys, p);
        PastPrefix(keys[e], p, keys[j]);
        LessAsymmetric(keys[e], keys[j]);
      }
    }
  }

  /** The keys that start with p, in ascending order. */
  function KeysWithPrefix(keys: seq<string>, p: string): (r: seq<string>)
    ensures forall k | k in r :: k in keys && StartsWith(k, p)
    ensures forall k | k in keys && StartsWith(k, p) :: k in r
  {
    if keys == [] then []
    else (if StartsWith(keys[0], p) then [keys[0]] else []) + KeysWithPrefix(keys[1..], p)
  }

  /** When exactly the positions s..e hold keys with prefix p, the filter is that slice. */
  lemma {:induction false} FilterIsSlice(keys: seq<string>, p: string, s: nat, e: nat)
    requires s <= e <= |keys|
    requires forall j | 0 <= j < |keys| :: StartsWith(keys[j], p) <==> s <= j < e
    ensures KeysWithPrefix(keys, p) == keys[s..e]
    decreases |keys|
  {
    if keys != [] {
      var tail := keys[1..];
      var s', e' := if s == 0 then 0 else s - 1, if e == 0 then 0 else e - 1;
      forall j | 0 <= j < |tail| ensures StartsWith(tail[j], p) <==> s' <= j < e' {
        assert tail[j] == keys[j + 1];
      }
      if s == 0 && e > 0 {
        FilterIsSlice(tail, p, 0, e - 1);
        SliceFromHead(keys, e);
      } else if s == 0 {
        FilterIsSlice(tail, p, 0, 0);
      } else {
        FilterIsSlice(tail, p, s - 1, e - 1);
        assert keys[s..e] == tail[s - 1..e - 1];
      }
    }
  }

  lemma SliceFromHead(keys: seq<string>, e: nat)
    requires 0 < e <= |keys|
    ensures keys[0..e] == [keys[0]] + keys[1..][0..e - 1]
  {
    assert keys[0..e] == [keys[0]] + keys[1..e];
  }

  /** A seek-and-scan over a sorted key list returns exactly the keys with prefix p, in order. */
  lemma ScanIsKeysWithPrefix(keys: seq<string>, p: string)
    requires Sorted(keys)
    ensures var s := SeekIndex(keys, p); keys[s..PrefixRunEnd(keys, p, s)] == KeysWithPrefix(keys, p)
  {
    PrefixRun(keys, p);
    var s := SeekIndex(keys, p);
    FilterIsSlice(keys, p, s, PrefixRunEnd(keys, p, s));
  }

  // ----------------------------------------------------- sorted insertion

  lemma InsertKeepsSorted(keys: seq<string>, k: string)
    requires Sorted(keys) && k !in keys
    ensures var i := SeekIndex(keys, k); Sorted(keys[..i] + [k] + keys[i..])
  {
    var i := SeekIndex(keys, k);
    SeekIndexAll(keys, k);
    var r := keys[..i] + [k] + keys[i..];
    forall a, b | 0 <= a < b < |r| ensures Less(r[a], r[b]) {
      if b < i || a > i {
      } else if a == i {
        LessTotal(k, keys[b - 1]);
      } else if b == i {
      } else {
        LessTotal(k, keys[b - 1]);
        LessTransitive(keys[a], k, keys[b - 1]);
      }
    }
  }

  lemma RemoveKeepsSorted(keys: seq<string>, i: nat)
    requires Sorted(keys) && i < |keys|
    ensures Sorted(keys[..i] + keys[i + 1..])
  {
    var r := keys[..i] + keys[i + 1..];
    forall a, b | 0 <= a < b < |r| ensures Less(r[a], r[b]) {
      var a' := if a < i then a else a + 1;
      var b' := if b < i then b else b + 1;
      assert r[a] == keys[a'] && r[b] == keys[b'];
    }
  }

  lemma SortedDistinct(keys: seq<string>, i: nat, j: nat)
    requires Sorted(keys) && i < |keys| && j < |keys| && i != j
    ensures keys[i] != keys[j]
  {
    if i < j { LessIrreflexive(keys[i]); } else { LessIrreflexive(keys[j]); }
  }
}
