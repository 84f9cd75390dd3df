/**
 * The small part of the Java platform that the mock server leans on:
 * optional values, the exceptions it raises or lets escape, the string
 * operations whose edge cases decide behaviour (`trim`, `isBlank`,
 * `startsWith`, `equalsIgnoreCase`, `Integer.parseInt`, `Integer.toString`,
 * `UUID.fromString`), and a source of fresh random identifiers.
 */
module JavaLang {

  datatype Option<T> = None | Some(value: T)

  /** One entry of the `checks` list a validation failure carries. */
  datatype Check = Check(field: string, message: string)

  /** The exceptions the modelled code raises or lets escape. */
  datatype Error =
    | Base(status: int, code: string)      // BaseException(status, code, message)
    | Validation(checks: seq<Check>)      // BaseException(400, "VALIDATION_EXCEPTION", ..., checks)
    | IllegalState
    | IllegalArgument
    | NullPointer
    | NumberFormat
    | ClassCast
    | IndexOutOfBounds
    | NoSuchElement
    | Runtime                             // RuntimeException wrapping a lower-level failure
    | Decode                              // the JSON mapper could not read the stored bytes as the requested type

  datatype Result<T> = Ok(value: T) | Err(error: Error)
  {
    predicate IsFailure() { Err? }
    function PropagateFailure<U>(): Result<U> requires Err? { Err(error) }
    function Extract(): T requires Ok? { value }
  }

  const MOCK_NOT_FOUND: Error := Base(404, "MOCK_NOT_FOUND")

  // ---------------------------------------------------------------- strings

  predicate StartsWith(s: string, prefix: string) {
    |prefix| <= |s| && s[..|prefix|] == prefix
  }

  predicate Contains(s: string, c: char) { c in s }

  /** Character.isWhitespace: the Unicode space separators other than the no-break ones, and the controls 9-13, 28-31. */
  predicate IsJavaWhitespace(c: char) {
    c == ' ' || ('\t' <= c <= '\r') || ('\U{1C}' <= c <= '\U{1F}')
    || c == '\U{1680}' || ('\U{2000}' <= c <= '\U{2006}') || ('\U{2008}' <= c <= '\U{200A}')
    || c == '\U{2028}' || c == '\U{2029}' || c == '\U{205F}' || c == '\U{3000}'
  }

  /** String.isBlank. */
  predicate IsBlank(s: string) {
    forall i | 0 <= i < |s| :: IsJavaWhitespace(s[i])
  }

  /** The characters String.trim removes at either end: every code unit up to and including the space. */
  predicate IsTrimmable(c: char) { c <= ' ' }

  function TrimLeft(s: string): (r: string)
    ensures |r| <= |s|
  {
    if s != [] && IsTrimmable(s[0]) then TrimLeft(s[1..]) else s
  }

  /** TrimLeft drops the longest trimmable prefix and nothing else. */
  lemma {:induction false} TrimLeftMeaning(s: string)
    ensures var r := TrimLeft(s); r == s[|s| - |r|..]
    ensures var r := TrimLeft(s); r == [] || !IsTrimmable(r[0])
    ensures var r := TrimLeft(s); forall i | 0 <= i < |s| - |r| :: IsTrimmable(s[i])
    decreases |s|
  {
    if s != [] && IsTrimmable(s[0]) {
      TrimLeftMeaning(s[1..]);
    }
  }

  function TrimRight(s: string): (r: string)
    ensures |r| <= |s|
  {
    if s != [] && IsTrimmable(s[|s| - 1]) then TrimRight(s[..|s| - 1]) else s
  }

  /** TrimRight drops the longest trimmable suffix and nothing else. */
  lemma {:induction false} TrimRightMeaning(s: string)
    ensures var r := TrimRight(s); r == s[..|r|]
    ensures var r := TrimRight(s); r == [] || !IsTrimmable(r[|r| - 1])
    ensures var r := TrimRight(s); forall i | |r| <= i < |s| :: IsTrimmable(s[i])
    decreases |s|
  {
    if s != [] && IsTrimmable(s[|s| - 1]) {
      TrimRightMeaning(s[..|s| - 1]);
    }
  }

  /** String.trim. */
  function Trim(s: string): string {
    TrimRight(TrimLeft(s))
  }

  /** Trimming twice is trimming once. */
  lemma TrimIdempotent(s: string)
    ensures Trim(Trim(s)) == Trim(s)
  {
    var l := TrimLeft(s);
    var t := TrimRight(l);
    TrimLeftMeaning(s);
    TrimRightMeaning(l);
    assert t == [] || t[0] == l[0];
    assert TrimLeft(t) == t;
    assert TrimRight(t) == t;
  }

  /** The ASCII part of Character.toLowerCase; other letters are left as they are. */
  function LowerChar(c: char): char {
    if 'A' <= c <= 'Z' then (c as int + 32) as char else c
  }

  function LowerCase(s: string): (r: string)
    ensures |r| == |s| && forall i | 0 <= i < |s| :: r[i] == LowerChar(s[i])
  {
    if s == [] then [] else [LowerChar(s[0])] + LowerCase(s[1..])
  }

  /** String.equalsIgnoreCase, for the ASCII letters. */
  predicate EqualsIgnoreCase(a: string, b: string) {
    LowerCase(a) == LowerCase(b)
  }

  /** A text with no capital letter is its own lower case. */
  lemma LowerCaseOfLower(w: string)
    requires forall i | 0 <= i < |w| :: !('A' <= w[i] <= 'Z')
    ensures LowerCase(w) == w
  {
    var l := LowerCase(w);
    assert forall i | 0 <= i < |w| :: l[i] == w[i];
  }

  /** No string occurs twice. */
  predicate NoDuplicates(s: seq<string>) {
    forall i, j | 0 <= i < j < |s| :: s[i] != s[j]
  }

  /** The index of the first occurrence of c, or -1 (String.indexOf). */
  function IndexOf(s: string, c: char): (r: int)
    ensures -1 <= r < |s|
    ensures r == -1 <==> c !in s
    ensures r >= 0 ==> s[r] == c && c !in s[..r]
  {
    if s == [] then -1
    else if s[0] == c then 0
    else var k := IndexOf(s[1..], c); if k == -1 then -1 else assert s[1..][..k] == s[1..k + 1]; k + 1
  }

  /** The first `c` of `a + [c] + b` is the one after `a` when `a` has none. */
  lemma {:induction false} IndexOfAfter(a: string, c: char, b: string)
    requires c !in a
    ensures IndexOf(a + [c] + b, c) == |a|
    decreases |a|
  {
    if a != [] {
      assert (a + [c] + b)[1..] == a[1..] + [c] + b;
      IndexOfAfter(a[1..], c, b);
    }
  }

  /** The first `c` of `a + b` is the first of `a` when `a` has one. */
  lemma {:induction false} IndexOfWithin(a: string, c: char, b: string)
    requires c in a
    ensures IndexOf(a + b, c) == IndexOf(a, c)
    decreases |a|
  {
    if a[0] != c {
      assert (a + b)[1..] == a[1..] + b;
      IndexOfWithin(a[1..], c, b);
    }
  }
  /** String.replace(char, char). */
  function ReplaceChar(s: string, a: char, b: char): (r: string)
    ensures |r| == |s|
    ensures forall i | 0 <= i < |s| :: r[i] == if s[i] == a then b else s[i]
  {
    if s == [] then [] else [if s[0] == a then b else s[0]] + ReplaceChar(s[1..], a, b)
  }

  // -------------------------------------------------------------- splitting

  /**
   * Every piece between occurrences of c, trailing empty pieces included,
   * built from the last character back: a delimiter starts a new, empty
   * piece and any other character extends the last one.
   */
  function Pieces(s: string, c: char): (ps: seq<string>)
    ensures |ps| >= 1
    decreases |s|
  {
    if s == [] then [""]
    else
      var ps := Pieces(s[..|s| - 1], c);
      var x := s[|s| - 1];
      if x == c then ps + [""] else ps[..|ps| - 1] + [ps[|ps| - 1] + [x]]
  }

  /** The pieces joined back with c between them. */
  function Join(ps: seq<string>, c: char): string {
    if ps == [] then "" else if |ps| == 1 then ps[0] else Join(ps[..|ps| - 1], c) + [c] + ps[|ps| - 1]
  }

  /** No piece holds the delimiter. */
  lemma {:induction false} PiecesHaveNoDelimiter(s: string, c: char)
    ensures forall i | 0 <= i < |Pieces(s, c)| :: c !in Pieces(s, c)[i]
    decreases |s|
  {
    if s != [] {
      var init := s[..|s| - 1];
      PiecesHaveNoDelimiter(init, c);
      var ps := Pieces(init, c);
      var x := s[|s| - 1];
      if x != c {
        var r := Pieces(s, c);
        forall i | 0 <= i < |r| ensures c !in r[i] {
          if i < |ps| - 1 { assert r[i] == ps[i]; } else { assert r[i] == ps[|ps| - 1] + [x]; }
        }
      }
    }
  }

  /** A string without the delimiter is its only piece. */
  lemma {:induction false} PiecesWithoutDelimiter(s: string, c: char)
    requires c !in s
    ensures Pieces(s, c) == [s]
    decreases |s|
  {
    if s != [] {
      var init := s[..|s| - 1];
      PiecesWithoutDelimiter(init, c);
      assert init + [s[|s| - 1]] == s;
    }
  }

  /** A delimiter at the end adds exactly one empty piece. */
  lemma PiecesAppendDelimiter(s: string, c: char)
    ensures Pieces(s + [c], c) == Pieces(s, c) + [""]
  {
    assert (s + [c])[..|s|] == s;
  }

  /** Splitting loses nothing: the pieces join back to the string. */
  lemma {:induction false} JoinPieces(s: string, c: char)
    ensures Join(Pieces(s, c), c) == s
    decreases |s|
  {
    if s != [] {
      var init := s[..|s| - 1];
      var x := s[|s| - 1];
      JoinPieces(init, c);
      var ps := Pieces(init, c);
      var r := Pieces(s, c);
      if x == c {
        assert r[..|r| - 1] == ps;
      } else {
        var front := ps[..|ps| - 1];
        assert r[..|r| - 1] == front;
        if |ps| > 1 {
          assert ps[..|ps| - 1] == front;
          assert Join(ps, c) == Join(front, c) + [c] + ps[|ps| - 1];
        }
      }
      assert init + [x] == s;
    }
  }

  function DropTrailingEmpty(ps: seq<string>): (r: seq<string>)
    ensures |r| <= |ps| && r == ps[..|r|]
    ensures r == [] || r[|r| - 1] != ""
    ensures forall i | |r| <= i < |ps| :: ps[i] == ""
  {
    if ps != [] && ps[|ps| - 1] == "" then DropTrailingEmpty(ps[..|ps| - 1]) else ps
  }

  /**
   * String.split with a one-character, non-special delimiter and no limit:
   * without an occurrence the result is the string itself; otherwise the
   * pieces, leading empty pieces kept and trailing empty ones dropped.
   */
  function Split(s: string, c: char): (parts: seq<string>)
    ensures forall i | 0 <= i < |parts| :: c !in parts[i]
    ensures c in s ==> parts == [] || parts[|parts| - 1] != ""
  {
    PiecesHaveNoDelimiter(s, c);
    if c !in s then [s] else DropTrailingEmpty(Pieces(s, c))
  }

  // --------------------------------------------------------------- integers

  const INT_MIN: int := -0x8000_0000
  const INT_MAX: int := 0x7FFF_FFFF

  predicate IsInt32(i: int) { INT_MIN <= i <= INT_MAX }

  predicate IsDigit(c: char) { '0' <= c <= '9' }

  function DigitChar(d: nat): (c: char)
    requires d < 10
    ensures IsDigit(c) && c as int - '0' as int == d
  {
    ('0' as int + d) as char
  }

  predicate AllDigits(s: string) {
    forall i | 0 <= i < |s| :: IsDigit(s[i])
  }

  /** The value of a run of decimal digits, most significant first. */
  function DigitsValue(s: string): nat
    requires AllDigits(s)
  {
    if s == [] then 0 else DigitsValue(s[..|s| - 1]) * 10 + (s[|s| - 1] as int - '0' as int)
  }

  /** Decimal text of a non-negative number, without leading zeros. */
  function NatToString(n: nat): (s: string)
    ensures s != [] && AllDigits(s)
    decreases n
  {
    if n < 10 then [DigitChar(n)] else NatToString(n / 10) + [DigitChar(n % 10)]
  }

  /** Integer.toString. */
  function IntToString(i: int): string {
    if i < 0 then "-" + NatToString(-i) else NatToString(i)
  }

  /** Integer.parseInt: an optional sign, then one or more ASCII digits, in the 32-bit range. */
  function ParseInt(s: string): (r: Option<int>)
    ensures r.Some? ==> IsInt32(r.value)
  {
    if s == [] then None
    else
      var neg := s[0] == '-';
      var digits := if s[0] == '-' || s[0] == '+' then s[1..] else s;
      if digits == [] || !AllDigits(digits) then None
      else
        var d: int := DigitsValue(digits);
        var v := if neg then -d else d;
        if IsInt32(v) then Some(v) else None
  }

  lemma {:induction false} DigitsOfNatToString(n: nat)
    ensures DigitsValue(NatToString(n)) == n
    decreases n
  {
    if n >= 10 {
      var p := NatToString(n / 10);
      var s := p + [DigitChar(n % 10)];
      assert s[..|s| - 1] == p;
      DigitsOfNatToString(n / 10);
    }
  }

  /** Integer.parseInt(Integer.toString(i)) == i for every int. */
  lemma ParseIntToString(i: int)
    requires IsInt32(i)
    ensures ParseInt(IntToString(i)) == Some(i)
  {
    var n: nat := if i < 0 then -i else i;
    var t := NatToString(n);
    DigitsOfNatToString(n);
    assert IsDigit(t[0]);
    if i < 0 {
      var s := "-" + t;
      assert s[0] == '-' && s[1..] == t;
    }
  }

  /** Integer.toString of any integer reads back as itself, or not at all when it is outside the 32-bit range. */
  lemma ParseIntOfToString(i: int)
    ensures ParseInt(IntToString(i)) == if IsInt32(i) then Some(i) else None
  {
    if IsInt32(i) {
      ParseIntToString(i);
    } else {
      var n: nat := if i < 0 then -i else i;
      var t := NatToString(n);
      DigitsOfNatToString(n);
      assert IsDigit(t[0]);
      if i < 0 {
        var s := "-" + t;
        assert s[0] == '-' && s[1..] == t;
      }
    }
  }

  // ------------------------------------------------------------------ UUIDs

  predicate IsHexDigit(c: char) { IsDigit(c) || 'a' <= c <= 'f' || 'A' <= c <= 'F' }

  /** The canonical 8-4-4-4-12 form of a UUID. */
  predicate IsCanonicalUuid(s: string) {
    |s| == 36
    && (forall i | 0 <= i < 36 :: if i == 8 || i == 13 || i == 18 || i == 23 then s[i] == '-' else IsHexDigit(s[i]))
  }

  predicate AllHex(s: string) {
    forall i | 0 <= i < |s| :: IsHexDigit(s[i])
  }

  function HexValue(c: char): (d: nat)
    requires IsHexDigit(c)
    ensures d < 16
  {
    if IsDigit(c) then c as int - '0' as int
    else if 'a' <= c <= 'f' then c as int - 'a' as int + 10
    else c as int - 'A' as int + 10
  }

  function Pow16(n: nat): (p: nat)
    ensures p >= 1
  {
    if n == 0 then 1 else 16 * Pow16(n - 1)
  }

  /** The value of a run of hex digits, most significant first. */
  function HexDigitsValue(s: string): (v: nat)
    requires AllHex(s)
    ensures v < Pow16(|s|)
  {
    if s == [] then 0
    else
      var init := s[..|s| - 1];
      assert AllHex(init) by { assert forall i | 0 <= i < |init| :: init[i] == s[i]; }
      HexDigitsValue(init) * 16 + HexValue(s[|s| - 1])
  }

  const LONG_MAX: int := 0x7FFF_FFFF_FFFF_FFFF

  /**
   * Long.parseLong(s, 16) for a text without a minus sign: an optional
   * plus sign, then one or more ASCII hex digits, at most Long.MAX_VALUE;
   * anything else is a NumberFormatException (None).
   */
  function ParseHexLong(s: string): (r: Option<nat>)
    requires '-' !in s
    ensures r.Some? ==> r.value <= LONG_MAX
    ensures AllHex(s) && 1 <= |s| <= 12 ==> r == Some(HexDigitsValue(s))
  {
    if s == [] then None
    else
      var digits := if s[0] == '+' then s[1..] else s;
      if digits == [] || !AllHex(digits) then None
      else
        var v := HexDigitsValue(digits);
        assert AllHex(s) && |s| <= 12 ==> Pow16(|s|) <= Pow16(12) by {
          if AllHex(s) && |s| <= 12 { Pow16Monotone(|s|, 12); }
        }
        if v <= LONG_MAX then Some(v) else None
  }

  lemma {:induction false} Pow16Monotone(m: nat, n: nat)
    requires m <= n
    ensures Pow16(m) <= Pow16(n)
    decreases n
  {
    if m < n { Pow16Monotone(m, n - 1); }
  }

  /** The hex digit of a value below 16, in lower case. */
  function HexChar(d: nat): (c: char)
    requires d < 16
    ensures IsHexDigit(c) && !('A' <= c <= 'Z') && HexValue(c) == d
  {
    if d < 10 then ('0' as int + d) as char else ('a' as int + d - 10) as char
  }

  /** The w lowest hex digits of v, zero-padded and in lower case: v masked to 4 * w bits, as UUID.toString prints it. */
  function HexText(v: nat, w: nat): (s: string)
    ensures |s| == w && AllHex(s)
    ensures forall i | 0 <= i < |s| :: !('A' <= s[i] <= 'Z')
  {
    if w == 0 then "" else HexText(v / 16, w - 1) + [HexChar(v % 16)]
  }

  /** Hex digits of the five fields of a UUID, in the order they are printed. */
  const TIME_LOW_DIGITS: nat := 8
  const TIME_MID_DIGITS: nat := 4
  const TIME_HIGH_DIGITS: nat := 4
  const CLOCK_SEQ_DIGITS: nat := 4
  const NODE_DIGITS: nat := 12

  /** UUID.toString of the five fields: the canonical form in lower case. */
  function UuidText(a: nat, b: nat, c: nat, d: nat, e: nat): (r: string)
    ensures IsCanonicalUuid(r) && LowerCase(r) == r
  {
    var r := HexText(a, TIME_LOW_DIGITS) + "-" + HexText(b, TIME_MID_DIGITS) + "-" + HexText(c, TIME_HIGH_DIGITS) + "-"
      + HexText(d, CLOCK_SEQ_DIGITS) + "-" + HexText(e, NODE_DIGITS);
    forall i | 0 <= i < 36
      ensures (if i == 8 || i == 13 || i == 18 || i == 23 then r[i] == '-' else IsHexDigit(r[i])) && !('A' <= r[i] <= 'Z')
    {
      if i < 8 { assert r[i] == HexText(a, TIME_LOW_DIGITS)[i]; }
      else if i == 8 || i == 13 || i == 18 || i == 23 { }
      else if i < 13 { assert r[i] == HexText(b, TIME_MID_DIGITS)[i - 9]; }
      else if i < 18 { assert r[i] == HexText(c, TIME_HIGH_DIGITS)[i - 14]; }
      else if i < 23 { assert r[i] == HexText(d, CLOCK_SEQ_DIGITS)[i - 19]; }
      else { assert r[i] == HexText(e, NODE_DIGITS)[i - 24]; }
    }
    LowerCaseOfLower(r);
    r
  }

  /**
   * UUID.fromString followed by toString. A text longer than 36
   * characters, or without exactly four dashes, raises
   * IllegalArgumentException; each of the five groups is read by
   * Long.parseLong in base 16 (NumberFormatException when it is not a hex
   * number) and masked to its width of 8, 4, 4, 4 and 12 digits. The result
   * is the canonical text in lower case, so short forms such as
   * `1-1-1-1-1` are accepted too.
   */
  function UuidFromString(s: string): (r: Result<string>)
    ensures r.Ok? ==> IsCanonicalUuid(r.value) && LowerCase(r.value) == r.value
    ensures r.Ok? ==> |s| <= 36 && |Pieces(s, '-')| == 5
    ensures |s| > 36 || |Pieces(s, '-')| != 5 ==> r == Err(IllegalArgument)
    ensures r.Err? ==> r.error == IllegalArgument || r.error == NumberFormat
  {
    if |s| > 36 then Err(IllegalArgument)
    else
      var ps := Pieces(s, '-');
      if |ps| != 5 then Err(IllegalArgument)
      else
        PiecesHaveNoDelimiter(s, '-');
        UuidOfGroups(ps)
  }

  /** The five dash-free groups read as hex numbers and printed at their widths. */
  function UuidOfGroups(ps: seq<string>): (r: Result<string>)
    requires |ps| == 5 && forall i | 0 <= i < 5 :: '-' !in ps[i]
    ensures r.Ok? ==> IsCanonicalUuid(r.value) && LowerCase(r.value) == r.value
    ensures r.Err? ==> r.error == NumberFormat
  {
    match (ParseHexLong(ps[0]), ParseHexLong(ps[1]), ParseHexLong(ps[2]), ParseHexLong(ps[3]), ParseHexLong(ps[4]))
    case (Some(a), Some(b), Some(c), Some(d), Some(e)) => Ok(UuidText(a, b, c, d, e))
    case _ => Err(NumberFormat)
  }

  /** A piece after the last delimiter is added as one more piece. */
  lemma {:induction false} PiecesSnoc(a: string, c: char, b: string)
    requires c !in b
    ensures Pieces(a + [c] + b, c) == Pieces(a, c) + [b]
    decreases |b|
  {
    if b == [] {
      assert a + [c] + b == a + [c];
      PiecesAppendDelimiter(a, c);
    } else {
      var init := b[..|b| - 1];
      var x := b[|b| - 1];
      assert c !in init by { assert forall i | 0 <= i < |init| :: init[i] == b[i]; }
      PiecesSnoc(a, c, init);
      var t := a + [c] + b;
      assert t[..|t| - 1] == a + [c] + init;
      assert init + [x] == b;
    }
  }

  lemma LowerCaseAppend(a: string, b: string)
    ensures LowerCase(a + b) == LowerCase(a) + LowerCase(b)
  {
    var l := LowerCase(a + b);
    assert forall i | 0 <= i < |l| :: l[i] == (LowerCase(a) + LowerCase(b))[i];
  }

  /** Printing the value of a run of hex digits at its own width gives the run back in lower case. */
  lemma {:induction false} HexTextOfDigits(g: string)
    requires AllHex(g)
    ensures HexText(HexDigitsValue(g), |g|) == LowerCase(g)
    decreases |g|
  {
    if g != [] {
      var init := g[..|g| - 1];
      var x := g[|g| - 1];
      assert AllHex(init) by { assert forall i | 0 <= i < |init| :: init[i] == g[i]; }
      HexTextOfDigits(init);
      var q := HexDigitsValue(init);
      var d := HexValue(x);
      HexTextStep(HexDigitsValue(g), q, d, |init|);
      HexCharOfValue(x);
      LowerCaseAppend(init, [x]);
      assert LowerCase([x]) == [LowerChar(x)];
      assert init + [x] == g;
      calc {
        HexText(HexDigitsValue(g), |g|);
        HexText(q, |init|) + [HexChar(d)];
        LowerCase(init) + [LowerChar(x)];
        LowerCase(init + [x]);
      }
    }
  }

  lemma HexTextStep(v: nat, q: nat, d: nat, w: nat)
    requires d < 16 && v == q * 16 + d
    ensures HexText(v, w + 1) == HexText(q, w) + [HexChar(d)]
  {
    DivModSixteen(q, d);
  }

  lemma DivModSixteen(q: nat, d: nat)
    requires d < 16
    ensures (q * 16 + d) / 16 == q && (q * 16 + d) % 16 == d
  {
  }

  lemma HexCharOfValue(x: char)
    requires IsHexDigit(x)
    ensures HexChar(HexValue(x)) == LowerChar(x)
  {
  }

  /** The two parse paths agree on the canonical form: it comes back in lower case. */
  lemma UuidOfCanonical(s: string)
    requires IsCanonicalUuid(s)
    ensures UuidFromString(s) == Ok(LowerCase(s))
  {
    var g1, g2, g3, g4, g5 := s[..8], s[9..13], s[14..18], s[19..23], s[24..];
    assert AllHex(g1) && AllHex(g2) && AllHex(g3) && AllHex(g4) && AllHex(g5) by {
      assert forall i | 0 <= i < 8 :: g1[i] == s[i];
      assert forall i | 0 <= i < 4 :: g2[i] == s[i + 9] && g3[i] == s[i + 14] && g4[i] == s[i + 19];
      assert forall i | 0 <= i < 12 :: g5[i] == s[i + 24];
    }
    var p1 := g1;
    var p2 := p1 + "-" + g2;
    var p3 := p2 + "-" + g3;
    var p4 := p3 + "-" + g4;
    assert s == p4 + "-" + g5;
    CanonicalPieces(s, g1, g2, g3, g4, g5);
    CanonicalGroups(g1, g2, g3, g4, g5);
    LowerCaseAround(p4, g5);
    LowerCaseAround(p3, g4);
    LowerCaseAround(p2, g3);
    LowerCaseAround(p1, g2);
  }

  lemma CanonicalPieces(s: string, g1: string, g2: string, g3: string, g4: string, g5: string)
    requires s == g1 + "-" + g2 + "-" + g3 + "-" + g4 + "-" + g5
    requires AllHex(g1) && AllHex(g2) && AllHex(g3) && AllHex(g4) && AllHex(g5)
    ensures Pieces(s, '-') == [g1, g2, g3, g4, g5]
  {
    var p1 := g1;
    var p2 := p1 + "-" + g2;
    var p3 := p2 + "-" + g3;
    var p4 := p3 + "-" + g4;
    HexHasNoDash(g1);
    HexHasNoDash(g2);
    HexHasNoDash(g3);
    HexHasNoDash(g4);
    HexHasNoDash(g5);
    PiecesWithoutDelimiter(g1, '-');
    PiecesSnoc(p1, '-', g2);
    PiecesSnoc(p2, '-', g3);
    PiecesSnoc(p3, '-', g4);
    PiecesSnoc(p4, '-', g5);
  }

  lemma HexHasNoDash(g: string)
    requires AllHex(g)
    ensures '-' !in g
  {
  }

  /** Five groups of hex digits at the canonical widths read back as themselves in lower case. */
  lemma CanonicalGroups(g1: string, g2: string, g3: string, g4: string, g5: string)
    requires AllHex(g1) && AllHex(g2) && AllHex(g3) && AllHex(g4) && AllHex(g5)
    requires |g1| == 8 && |g2| == 4 && |g3| == 4 && |g4| == 4 && |g5| == 12
    ensures forall i | 0 <= i < 5 :: '-' !in [g1, g2, g3, g4, g5][i]
    ensures UuidOfGroups([g1, g2, g3, g4, g5])
      == Ok(LowerCase(g1) + "-" + LowerCase(g2) + "-" + LowerCase(g3) + "-" + LowerCase(g4) + "-" + LowerCase(g5))
  {
    HexHasNoDash(g1);
    HexHasNoDash(g2);
    HexHasNoDash(g3);
    HexHasNoDash(g4);
    HexHasNoDash(g5);
    HexTextOfDigits(g1);
    HexTextOfDigits(g2);
    HexTextOfDigits(g3);
    HexTextOfDigits(g4);
    HexTextOfDigits(g5);
  }

  lemma LowerCaseAround(a: string, b: string)
    ensures LowerCase(a + "-" + b) == LowerCase(a) + "-" + LowerCase(b)
  {
    LowerCaseAppend(a + "-", b);
    LowerCaseAppend(a, "-");
  }

  /** What UUID.fromString gives is read back unchanged. */
  lemma UuidFromStringIdempotent(s: string)
    requires UuidFromString(s).Ok?
    ensures UuidFromString(UuidFromString(s).value) == UuidFromString(s)
  {
    UuidOfCanonical(UuidFromString(s).value);
  }

  /** The value printed at width w is the value modulo 16^w: what the mask keeps. */
  lemma {:induction false} HexTextValue(v: nat, w: nat)
    ensures HexDigitsValue(HexText(v, w)) == v % Pow16(w)
    decreases w
  {
    if w > 0 {
      var t := HexText(v, w);
      HexTextValue(v / 16, w - 1);
      assert t[..w - 1] == HexText(v / 16, w - 1);
      assert HexValue(t[w - 1]) == v % 16;
      var p := Pow16(w - 1);
      var q, m := v / 16, (v / 16) % p;
      DivModIdentity(q, p);
      Regroup16(v, q, v % 16, q / p, p, m);
      ModUnique(v, 16 * p, q / p, m * 16 + v % 16);
    }
  }

  lemma DivModIdentity(q: int, p: int)
    requires p > 0
    ensures q == (q / p) * p + q % p && 0 <= q % p < p
  {
  }

  lemma Regroup16(v: int, q: int, r: int, k: int, p: int, m: int)
    requires v == q * 16 + r && q == k * p + m
    ensures v == k * (16 * p) + (m * 16 + r)
  {
    assert q * 16 == k * p * 16 + m * 16;
  }

  lemma ModUnique(v: int, n: int, a: int, b: int)
    requires n > 0 && 0 <= b < n && v == a * n + b
    ensures v % n == b && v / n == a
  {
    var q, r := v / n, v % n;
    assert (a - q) * n == r - b by { assert a * n + b == q * n + r; }
    if a - q > 0 { MulAtLeast(a - q, n); } else if a - q < 0 { MulAtLeast(q - a, n); }
  }

  lemma MulAtLeast(k: int, n: int)
    requires k >= 1 && n > 0
    ensures k * n >= n
  {
    assert k * n == (k - 1) * n + n;
  }

  /** n zero digits. */
  function Zeros(n: nat): (z: string)
    ensures |z| == n && forall i | 0 <= i < n :: z[i] == '0'
  {
    if n == 0 then "" else Zeros(n - 1) + "0"
  }

  /** A group zero-padded on the left to width w. */
  function Padded(g: string, w: nat): (p: string)
    requires |g| <= w
    ensures |p| == w
  {
    Zeros(w - |g|) + g
  }

  /** Leading zeros do not change the value of a run of hex digits. */
  lemma {:induction false} LeadingZerosValue(n: nat, g: string)
    requires AllHex(g)
    ensures AllHex(Zeros(n) + g) && HexDigitsValue(Zeros(n) + g) == HexDigitsValue(g)
    decreases |g|, n
  {
    var t := Zeros(n) + g;
    assert AllHex(t) by { assert forall i | 0 <= i < |t| :: t[i] == (if i < n then '0' else g[i - n]); }
    if g == [] {
      assert t == Zeros(n);
      if n > 0 {
        LeadingZerosValue(n - 1, g);
        assert t[..|t| - 1] == Zeros(n - 1) + g;
      }
    } else {
      var init := g[..|g| - 1];
      assert AllHex(init) by { assert forall i | 0 <= i < |init| :: init[i] == g[i]; }
      LeadingZerosValue(n, init);
      assert t[..|t| - 1] == Zeros(n) + init;
      assert t[|t| - 1] == g[|g| - 1];
    }
  }

  /** Printing a group's value at width w gives the group zero-padded to w, in lower case. */
  lemma PaddedGroupText(g: string, w: nat)
    requires AllHex(g) && |g| <= w
    ensures HexText(HexDigitsValue(g), w) == LowerCase(Padded(g, w))
  {
    LeadingZerosValue(w - |g|, g);
    HexTextOfDigits(Padded(g, w));
  }

  /**
   * A short form such as `1-1-1-1-1` is read as the canonical text with
   * each group zero-padded to its width.
   */
  lemma ShortFormIsPadded(s: string, g1: string, g2: string, g3: string, g4: string, g5: string)
    requires s == g1 + "-" + g2 + "-" + g3 + "-" + g4 + "-" + g5
    requires AllHex(g1) && AllHex(g2) && AllHex(g3) && AllHex(g4) && AllHex(g5)
    requires 1 <= |g1| <= TIME_LOW_DIGITS && 1 <= |g2| <= TIME_MID_DIGITS && 1 <= |g3| <= TIME_HIGH_DIGITS
    requires 1 <= |g4| <= CLOCK_SEQ_DIGITS && 1 <= |g5| <= NODE_DIGITS
    ensures var c := Padded(g1, TIME_LOW_DIGITS) + "-" + Padded(g2, TIME_MID_DIGITS) + "-" + Padded(g3, TIME_HIGH_DIGITS) + "-"
                     + Padded(g4, CLOCK_SEQ_DIGITS) + "-" + Padded(g5, NODE_DIGITS);
      IsCanonicalUuid(c) && UuidFromString(s) == Ok(LowerCase(c))
  {
    var p1, p2, p3, p4, p5 := Padded(g1, TIME_LOW_DIGITS), Padded(g2, TIME_MID_DIGITS), Padded(g3, TIME_HIGH_DIGITS),
                              Padded(g4, CLOCK_SEQ_DIGITS), Padded(g5, NODE_DIGITS);
    CanonicalPieces(s, g1, g2, g3, g4, g5);
    ShortFormParses(s, g1, g2, g3, g4, g5);
    PaddedGroupText(g1, TIME_LOW_DIGITS);
    PaddedGroupText(g2, TIME_MID_DIGITS);
    PaddedGroupText(g3, TIME_HIGH_DIGITS);
    PaddedGroupText(g4, CLOCK_SEQ_DIGITS);
    PaddedGroupText(g5, NODE_DIGITS);
    var c := p1 + "-" + p2 + "-" + p3 + "-" + p4 + "-" + p5;
    assert UuidText(HexDigitsValue(g1), HexDigitsValue(g2), HexDigitsValue(g3), HexDigitsValue(g4), HexDigitsValue(g5))
      == LowerCase(p1) + "-" + LowerCase(p2) + "-" + LowerCase(p3) + "-" + LowerCase(p4) + "-" + LowerCase(p5);
    LowerCaseAround(p1 + "-" + p2 + "-" + p3 + "-" + p4, p5);
    LowerCaseAround(p1 + "-" + p2 + "-" + p3, p4);
    LowerCaseAround(p1 + "-" + p2, p3);
    LowerCaseAround(p1, p2);
    assert IsCanonicalUuid(LowerCase(c));
    CanonicalOfLower(c);
  }

  lemma CanonicalOfLower(c: string)
    requires IsCanonicalUuid(LowerCase(c))
    ensures IsCanonicalUuid(c)
  {
    forall i | 0 <= i < 36
      ensures if i == 8 || i == 13 || i == 18 || i == 23 then c[i] == '-' else IsHexDigit(c[i])
    {
      assert LowerCase(c)[i] == LowerChar(c[i]);
    }
  }

  lemma ShortFormParses(s: string, g1: string, g2: string, g3: string, g4: string, g5: string)
    requires |s| <= 36 && Pieces(s, '-') == [g1, g2, g3, g4, g5]
    requires AllHex(g1) && AllHex(g2) && AllHex(g3) && AllHex(g4) && AllHex(g5)
    requires 1 <= |g1| <= 8 && 1 <= |g2| <= 4 && 1 <= |g3| <= 4 && 1 <= |g4| <= 4 && 1 <= |g5| <= 12
    ensures UuidFromString(s)
      == Ok(UuidText(HexDigitsValue(g1), HexDigitsValue(g2), HexDigitsValue(g3), HexDigitsValue(g4), HexDigitsValue(g5)))
  {
    ShortGroups(g1, g2, g3, g4, g5);
    UuidFromGroups(s);
  }

  lemma UuidFromGroups(s: string)
    requires |s| <= 36 && |Pieces(s, '-')| == 5
    ensures forall i | 0 <= i < 5 :: '-' !in Pieces(s, '-')[i]
    ensures UuidFromString(s) == UuidOfGroups(Pieces(s, '-'))
  {
    PiecesHaveNoDelimiter(s, '-');
  }

  lemma ShortGroups(g1: string, g2: string, g3: string, g4: string, g5: string)
    requires AllHex(g1) && AllHex(g2) && AllHex(g3) && AllHex(g4) && AllHex(g5)
    requires 1 <= |g1| <= 8 && 1 <= |g2| <= 4 && 1 <= |g3| <= 4 && 1 <= |g4| <= 4 && 1 <= |g5| <= 12
    ensures forall i | 0 <= i < 5 :: '-' !in [g1, g2, g3, g4, g5][i]
    ensures UuidOfGroups([g1, g2, g3, g4, g5])
      == Ok(UuidText(HexDigitsValue(g1), HexDigitsValue(g2), HexDigitsValue(g3), HexDigitsValue(g4), HexDigitsValue(g5)))
  {
    HexHasNoDash(g1);
    HexHasNoDash(g2);
    HexHasNoDash(g3);
    HexHasNoDash(g4);
    HexHasNoDash(g5);
  }

  /** String.format("%s", x) of a reference that may be null. */
  function FormatNullable(o: Option<string>): string {
    if o.Some? then o.value else "null"
  }

  /**
   * The elements of a set in the order a hash-based collection iterates
   * them, which Java leaves unspecified: each exactly once, in an order
   * the caller may not rely on.
   */
  method InSomeOrder<K>(s: set<K>) returns (xs: seq<K>)
    ensures |xs| == |s| && forall x | x in s :: x in xs
    ensures forall i | 0 <= i < |xs| :: xs[i] in s
  {
    var todo := s;
    xs := [];
    while todo != {}
      invariant todo <= s && |xs| + |todo| == |s|
      invariant forall x | x in s :: x in xs || x in todo
      invariant forall i | 0 <= i < |xs| :: xs[i] in s && xs[i] !in todo
      decreases |todo|
    {
      var x :| x in todo;
      xs := xs + [x];
      todo := todo - {x};
    }
  }

  /**
   * UUID.randomUUID: an oracle handing out identifiers one after another.
   * Nothing is assumed about them; the properties that need an identifier
   * in canonical form ask for it.
   */
  class IdSource {
    const supply: nat -> string
    var next: nat

    constructor (supply: nat -> string)
      ensures this.supply == supply && next == 0
    {
      this.supply := supply;
      next := 0;
    }

    method Fresh() returns (id: string)
      modifies this
      ensures id == supply(old(next)) && next == old(next) + 1
    {
      id := supply(next);
      next := next + 1;
    }
  }
}
