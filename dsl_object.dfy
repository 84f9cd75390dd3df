/**
 * DslObject: the wrapper placeholder expressions navigate through. A
 * property read is a map lookup on a Map, a declared-field read on any
 * other object, and null when either finds nothing; it never throws.
 */
module DslObject {
  import opened JavaLang
  import opened Values

  /** `get(field)`. */
  function GetField(v: Value, field: string): (r: Value)
    ensures v.JMap? ==> r == Lookup(v.entries, field)
    ensures v.JObject? ==> r == Lookup(v.fields, field)
    ensures !v.JMap? && !v.JObject? ==> r == Null
  {
    match v
    case JMap(es) => Lookup(es, field)
    case JObject(_, fs) => Lookup(fs, field)
    case _ => Null
  }

  /** A name the value does not hold reads as null, whatever the value is. */
  lemma GetMissingIsNull(v: Value, field: string)
    requires v.JMap? ==> field !in Keys(v.entries)
    requires v.JObject? ==> field !in Keys(v.fields)
    ensures GetField(v, field) == Null
  {
  }

  /** Reading a key back after `Map.put` gives the value put, and leaves the other keys as they were. */
  lemma GetAfterPut(es: Entries, k: string, x: Value, field: string)
    ensures GetField(JMap(Put(es, k, x)), field) == if field == k then x else GetField(JMap(es), field)
  {
    LookupPut(es, k, x, field);
  }

  /**
   * `json()`: an empty map for null, the map itself for a Map, else the
   * text parsed as a JSON object: the JSON literal `null` reads as null,
   * and any other text that is not an object is a RuntimeException.
   */
  function JsonOf(v: Value, parse: string -> Option<Value>): (r: Result<Value>)
    ensures r.Ok? ==> r.value.JMap? || r.value.Null?
    ensures v.Null? ==> r == Ok(JMap([]))
    ensures v.JMap? ==> r == Ok(v)
    ensures r == Ok(Null) <==> !v.Null? && !v.JMap? && parse(Text(v)) == Some(Null)
    ensures r.Err? ==> r.error == Runtime && !v.Null? && !v.JMap?
  {
    if v.Null? then Ok(JMap([]))
    else if v.JMap? then Ok(v)
    else match parse(Text(v)) case Some(JMap(es)) => Ok(JMap(es)) case Some(Null) => Ok(Null) case _ => Err(Runtime)
  }

  /** `json()` of a map that `json()` gave is the same map. */
  lemma JsonIdempotent(v: Value, parse: string -> Option<Value>)
    requires JsonOf(v, parse).Ok? && JsonOf(v, parse).value.JMap?
    ensures JsonOf(JsonOf(v, parse).value, parse) == JsonOf(v, parse)
  {
  }

  /** Text holding the JSON `null` reads as null, and `json()` of that is the empty map. */
  lemma JsonOfNullText(v: Value, parse: string -> Option<Value>)
    requires !v.Null? && !v.JMap? && parse(Text(v)) == Some(Null)
    ensures JsonOf(v, parse) == Ok(Null) && JsonOf(JsonOf(v, parse).value, parse) == Ok(JMap([]))
  {
  }

  /** `str()`, and `toString()`, which returns it. */
  function StrOf(v: Value): (r: string)
    ensures v.Null? ==> r == ""
    ensures !v.Null? ==> r == Text(v)
  {
    if v.Null? then "" else Text(v)
  }

  /** `defaultIfNull(d)`. */
  function DefaultIfNull(v: Value, d: string): (r: string)
    ensures r == d <==> v.Null? || Text(v) == d
    ensures !v.Null? ==> r == Text(v)
  {
    if v.Null? then d else Text(v)
  }

  /** `str()` is `defaultIfNull("")`: the two differ only in what stands in for null. */
  lemma StrIsDefaultEmpty(v: Value)
    ensures StrOf(v) == DefaultIfNull(v, "")
  {
  }

  /** The words `bool()` reads as true. */
  predicate IsTruthyWord(s: string) {
    EqualsIgnoreCase("true", s) || s == "1" || EqualsIgnoreCase("yes", s) || EqualsIgnoreCase("on", s)
  }

  /**
   * `bool()`: false for null, a Boolean as it is, else whether the trimmed
   * text is one of the truthy words; the blank check in between never
   * changes the answer, since no truthy word is blank.
   */
  function BoolOf(v: Value): (r: bool)
    ensures v.Null? ==> !r
    ensures v.Bool? ==> r == v.b
    ensures !v.Null? && !v.Bool? ==> (r <==> IsTruthyWord(Trim(Text(v))))
  {
    if v.Null? then false
    else if v.Bool? then v.b
    else
      var s := Trim(Text(v));
      if IsBlank(s) then (TruthyNotBlank(s); false) else IsTruthyWord(s)
  }

  lemma TruthyNotBlank(s: string)
    requires IsBlank(s)
    ensures !IsTruthyWord(s)
  {
    if s != [] {
      assert IsJavaWhitespace(s[0]);
      assert IsJavaWhitespace(LowerCase(s)[0]);
    }
  }

  /** Padding around a word does not change what `bool()` makes of it. */
  lemma BoolIgnoresPadding(s: string)
    ensures BoolOf(Str(s)) == BoolOf(Str(Trim(s)))
  {
    TrimIdempotent(s);
  }

  /**
   * `num()` up to the BigDecimal constructor: None stands for
   * BigDecimal.ZERO (null, or text blank after trimming), Some(t) for the
   * text handed to `new BigDecimal`, a number's own text or the trimmed
   * text with every comma turned into a point.
   */
  function NumText(v: Value): (r: Option<string>)
    ensures v.Null? ==> r.None?
    ensures v.Int? || v.Num? ==> r == Some(Text(v))
    ensures !v.Null? && !v.Int? && !v.Num? ==> (r.None? <==> IsBlank(ReplaceChar(Trim(Text(v)), ',', '.')))
    ensures !v.Int? && !v.Num? && r.Some? ==> ',' !in r.value && |r.value| == |Trim(Text(v))|
  {
    if v.Null? then None
    else if v.Int? || v.Num? then Some(Text(v))
    else
      var s := ReplaceChar(Trim(Text(v)), ',', '.');
      if IsBlank(s) then None else Some(s)
  }
}
