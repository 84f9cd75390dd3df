/**
 * The dynamically typed Java objects that flow through the mock server:
 * request step maps, attribute values, payloads held in the execution
 * context, parsed JSON. A map is an association list in its iteration
 * order, so `toString` is a function of the value.
 */
module Values {
  import opened JavaLang

  datatype Value =
    | Null
    | Str(s: string)
    | Int(i: int)                                         // java.lang.Integer, without its 32-bit bound
    | Bool(b: bool)                                       // java.lang.Boolean
    | Num(text: string)                                   // any other java.lang.Number, by its decimal text
    | JMap(entries: seq<(string, Value)>)                 // a java.util.Map with String keys
    | JList(items: seq<Value>)                            // a java.util.List
    | JObject(cls: string, fields: seq<(string, Value)>)  // an application object with declared fields
    | Other(text: string)                                 // any other object, by its toString

  type Entries = seq<(string, Value)>

  /** Object.toString, as Java and Lombok render these values. */
  function Text(v: Value): string
    decreases v, 1
  {
    match v
    case Null => "null"
    case Str(s) => s
    case Int(i) => IntToString(i)
    case Bool(b) => if b then "true" else "false"
    case Num(t) => t
    case JMap(es) => "{" + EntriesText(es) + "}"
    case JList(xs) => "[" + ItemsText(xs) + "]"
    case JObject(c, fs) => c + "(" + EntriesText(fs) + ")"
    case Other(t) => t
  }

  function EntriesText(es: Entries): string
    decreases es
  {
    if es == [] then ""
    else
      var e := es[0];
      assert e in es;
      assert e.1 < e;
      e.0 + "=" + Text(e.1) + (if |es| == 1 then "" else ", " + EntriesText(es[1..]))
  }

  function ItemsText(xs: seq<Value>): string
    decreases xs
  {
    if xs == [] then "" else Text(xs[0]) + (if |xs| == 1 then "" else ", " + ItemsText(xs[1..]))
  }

  /** Objects.toString(v, null): the text of a non-null value. */
  function TextOrNull(v: Value): (r: Option<string>)
    ensures r.None? <==> v.Null?
  {
    if v.Null? then None else Some(Text(v))
  }

  /** The execution context of one flow run: the payload of each step by its order number (a HashMap<Integer, Object>). */
  type ExecContext = map<int, Value>

  /** Map.get on the context: null for an order number with no entry. */
  function ContextGet(ctx: ExecContext, order: int): (r: Value)
    ensures order !in ctx ==> r == Null
    ensures order in ctx ==> r == ctx[order]
  {
    if order in ctx then ctx[order] else Null
  }

  // ------------------------------------------------------- association lists

  function Keys(es: Entries): (ks: seq<string>)
    ensures |ks| == |es| && forall i | 0 <= i < |es| :: ks[i] == es[i].0
  {
    if es == [] then [] else [es[0].0] + Keys(es[1..])
  }

  /** No key occurs twice, as in any java.util.Map. */
  predicate UniqueKeys(es: Entries) {
    forall i, j | 0 <= i < j < |es| :: es[i].0 != es[j].0
  }

  /** Map.get: the value under k, or null when k is absent. */
  function Lookup(es: Entries, k: string): (r: Value)
    ensures k !in Keys(es) ==> r == Null
  {
    if es == [] then Null
    else if es[0].0 == k then es[0].1
    else Lookup(es[1..], k)
  }

  /** HashMap.put / LinkedHashMap.put: replace the value of an existing key in place, else append. */
  function Put(es: Entries, k: string, v: Value): (r: Entries)
    ensures k in Keys(es) ==> Keys(r) == Keys(es)
    ensures k !in Keys(es) ==> Keys(r) == Keys(es) + [k]
    decreases |es|
  {
    if es == [] then [(k, v)]
    else if es[0].0 == k then [(k, v)] + es[1..]
    else [es[0]] + Put(es[1..], k, v)
  }

  lemma {:induction false} LookupPut(es: Entries, k: string, v: Value, k': string)
    ensures Lookup(Put(es, k, v), k') == if k' == k then v else Lookup(es, k')
    decreases |es|
  {
    if es != [] && es[0].0 != k {
      LookupPut(es[1..], k, v, k');
    }
  }

  lemma {:induction false} PutKeepsUniqueKeys(es: Entries, k: string, v: Value)
    requires UniqueKeys(es)
    ensures UniqueKeys(Put(es, k, v))
    decreases |es|
  {
    if es != [] && es[0].0 != k {
      PutKeepsUniqueKeys(es[1..], k, v);
      var r := Put(es, k, v);
      var ks := Keys(es[1..]);
      assert forall j | 0 <= j < |ks| :: ks[j] != es[0].0;
      assert Keys(r[1..]) == Keys(Put(es[1..], k, v));
    }
  }
}
