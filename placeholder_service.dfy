/**
 * PlaceholderService: `{{…}}` templating. Each region the pattern
 * `\{\{(.+?)}}` finds is replaced, literally, by what its trimmed content
 * resolves to: a fresh UUID for `random.uuid` (any letter case), a global
 * variable for `global.<key>`, else `<order>.<expression>` evaluated with
 * SpEL against the context entry at that order, wrapped in a DslObject.
 */
module PlaceholderService {
  import opened JavaLang
  import opened Values
  import opened Records
  import opened RocksStore
  import opened RocksDbRepository
  import opened GlobalEnvironmentRepository
  import Constant
  import opened DslObject

  const RANDOM_UUID: string := "random.uuid"
  const GLOBAL_PREFIX: string := "global."

  // ------------------------------------------------ the pattern \{\{(.+?)}}

  /** Two consecutive characters of s at j. */
  predicate PairAt(s: string, j: int, c: char) {
    0 <= j && j + 1 < |s| && s[j] == c && s[j + 1] == c
  }

  /**
   * The lazy group of a match that opened at `start`, scanning from k: the
   * first `}}` at least one character past the braces, provided no line
   * terminator (which `.` does not match) comes first.
   */
  function CloseFrom(s: string, start: nat, k: nat): (r: Option<nat>)
    requires start + 2 <= k
    ensures r.Some? ==> start + 3 <= r.value && k <= r.value && r.value + 2 <= |s|
    decreases |s| - k
  {
    if k + 1 >= |s| then None
    else if start + 3 <= k && PairAt(s, k, '}') then Some(k)
    else if Constant.IsLineTerminator(s[k]) then None
    else CloseFrom(s, start, k + 1)
  }

  /** The close found is the first `}}` past the first group character, and nothing before it is a line terminator; when none is found, every later `}}` has one before it. */
  lemma {:induction false} CloseFromMeaning(s: string, start: nat, k: nat)
    requires start + 2 <= k
    ensures var r := CloseFrom(s, start, k); r.Some? ==> PairAt(s, r.value, '}')
    ensures var r := CloseFrom(s, start, k); r.Some? ==> forall i | k <= i < r.value :: !Constant.IsLineTerminator(s[i])
    ensures var r := CloseFrom(s, start, k); r.Some? ==> forall j | k <= j < r.value && start + 3 <= j :: !PairAt(s, j, '}')
    ensures CloseFrom(s, start, k).None? ==>
      forall j | k <= j && start + 3 <= j && PairAt(s, j, '}') :: exists i | k <= i < j :: Constant.IsLineTerminator(s[i])
    decreases |s| - k
  {
    if k + 1 >= |s| {
    } else if start + 3 <= k && PairAt(s, k, '}') {
    } else if Constant.IsLineTerminator(s[k]) {
      forall j | k <= j && start + 3 <= j && PairAt(s, j, '}')
        ensures exists i | k <= i < j :: Constant.IsLineTerminator(s[i])
      {
        assert j != k;
        assert Constant.IsLineTerminator(s[k]);
      }
    } else {
      CloseFromMeaning(s, start, k + 1);
      var r := CloseFrom(s, start, k + 1);
      if r.None? {
        forall j | k <= j && start + 3 <= j && PairAt(s, j, '}')
          ensures exists i | k <= i < j :: Constant.IsLineTerminator(s[i])
        {
          assert j != k;
          var i :| k + 1 <= i < j && Constant.IsLineTerminator(s[i]);
        }
      }
    }
  }

  /** Where the group of a match opening at i ends, if one opens there. */
  function MatchAt(s: string, i: nat): Option<nat> {
    if PairAt(s, i, '{') then CloseFrom(s, i, i + 2) else None
  }

  /** A match: `{{` at `start`, `}}` at `close`, the group between them. */
  datatype Region = Region(start: nat, close: nat)

  /** `Matcher.find` from pos. */
  function FindFrom(s: string, pos: nat): (r: Option<Region>)
    requires pos <= |s|
    ensures r.Some? ==> pos <= r.value.start && r.value.start + 3 <= r.value.close && r.value.close + 2 <= |s|
    decreases |s| - pos
  {
    if pos == |s| then None
    else match MatchAt(s, pos)
      case Some(c) => Some(Region(pos, c))
      case None => FindFrom(s, pos + 1)
  }

  /** The match found is the leftmost: no match opens between pos and its start, and none at all when nothing is found. */
  lemma {:induction false} FindFromIsLeftmost(s: string, pos: nat)
    requires pos <= |s|
    ensures var r := FindFrom(s, pos); r.Some? ==> MatchAt(s, r.value.start) == Some(r.value.close)
    ensures var r := FindFrom(s, pos); r.Some? ==> forall i | pos <= i < r.value.start :: MatchAt(s, i).None?
    ensures FindFrom(s, pos).None? ==> forall i | pos <= i <= |s| :: MatchAt(s, i).None?
    decreases |s| - pos
  {
    if pos < |s| && MatchAt(s, pos).None? {
      FindFromIsLeftmost(s, pos + 1);
    }
  }

  /** The region's content is the shortest non-empty run before a `}}` that holds no line terminator. */
  lemma RegionIsShortest(s: string, pos: nat)
    requires pos <= |s| && FindFrom(s, pos).Some?
    ensures var m := FindFrom(s, pos).value;
      PairAt(s, m.start, '{') && PairAt(s, m.close, '}') && m.close > m.start + 2
      && (forall i | m.start + 2 <= i < m.close :: !Constant.IsLineTerminator(s[i]))
      && (forall j | m.start + 3 <= j < m.close :: !PairAt(s, j, '}'))
  {
    FindFromIsLeftmost(s, pos);
    var m := FindFrom(s, pos).value;
    CloseFromMeaning(s, m.start, m.start + 2);
  }

  // --------------------------------------------------------- resolution

  /** What resolution reads: the context, the store behind the global repository, the UUID supply, and SpEL beyond plain property paths. */
  datatype Env = Env(ctx: ExecContext, kv: map<string, Stored>, supply: nat -> string, spel: (string, Value) -> Option<string>)

  predicate IsAsciiLetter(c: char) { 'a' <= c <= 'z' || 'A' <= c <= 'Z' }

  /** Words SpEL reads as operators or literals rather than as property names. */
  const RESERVED: seq<string> := ["and", "or", "not", "div", "mod", "eq", "ne", "lt", "le", "gt", "ge",
                                  "instanceof", "matches", "between", "true", "false", "null", "new", "t"]

  predicate IsPropertyName(w: string) {
    |w| > 0 && (IsAsciiLetter(w[0]) || w[0] == '_' || w[0] == '$')
    && (forall i | 0 <= i < |w| :: IsAsciiLetter(w[i]) || IsDigit(w[i]) || w[i] == '_' || w[i] == '$')
    && LowerCase(w) !in RESERVED
  }

  /** A SpEL expression that is nothing but property reads `a.b.c`. */
  predicate IsPropertyPath(p: string) {
    forall w | w in Pieces(p, '.') :: IsPropertyName(w)
  }

  /** The property reads through DslPropertyAccessor: each one `get`s, and a missing link is null from then on. */
  function Navigate(v: Value, names: seq<string>): (r: Value)
    ensures v.Null? ==> r.Null?
    decreases |names|
  {
    if names == [] then v else Navigate(GetField(v, names[0]), names[1..])
  }

  /**
   * `resolveDsl`: the order before the first dot, the context entry at
   * that order, then the rest evaluated against it. The result is always
   * a DslObject, so it prints as `str()`; any failure prints as "".
   */
  function ResolveDsl(expr: string, env: Env): string {
    var dot := IndexOf(expr, '.');
    if dot == -1 then ""
    else
      match ParseInt(expr[..dot])
      case None => ""
      case Some(order) =>
        var raw := ContextGet(env.ctx, order);
        if raw.Null? then ""
        else
          var rest := expr[dot + 1..];
          if IsPropertyPath(rest) then StrOf(Navigate(raw, Pieces(rest, '.')))
          else match env.spel(rest, raw) case None => "" case Some(t) => t
  }

  /** How Lombok prints the entity `findByKey` returns. */
  function EntityText(v: GlobalVariable): string {
    "GlobalVariableEntity(key=" + FormatNullable(v.key) + ", value=" + Text(v.value) + ")"
  }

  /** `resolveGlobal`: the trimmed key after `global.`, looked up through the repository's `findByKey`. */
  function ResolveGlobal(expr: string, kv: map<string, Stored>): string
    requires StartsWith(expr, GLOBAL_PREFIX)
  {
    var key := Trim(expr[|GLOBAL_PREFIX|..]);
    if key == [] then ""
    else match Find(kv, BuildKey(COLLECTION_ID_KEY, key), AsVariable) case None => "" case Some(v) => EntityText(v)
  }

  /** `equalsIgnoreCase("random.uuid")`, against the constant's own (lower-case) letters. */
  predicate IsRandomUuid(expr: string) {
    LowerCase(expr) == RANDOM_UUID
  }

  /** `resolve`, with `next` the position of the UUID a `random.uuid` takes. */
  function Resolve(expr: string, env: Env, next: nat): string {
    if IsRandomUuid(expr) then env.supply(next)
    else if StartsWith(expr, GLOBAL_PREFIX) then ResolveGlobal(expr, env.kv)
    else ResolveDsl(expr, env)
  }

  function Draws(expr: string): nat {
    if IsRandomUuid(expr) then 1 else 0
  }

  /** The trimmed content of a region. */
  function Content(s: string, m: Region): string
    requires m.start + 2 <= m.close <= |s|
  {
    Trim(s[m.start + 2..m.close])
  }

  /** Regions in text order from pos, none overlapping the one before. */
  predicate Chained(s: string, pos: nat, rs: seq<Region>)
    decreases |rs|
  {
    pos <= |s|
    && (rs != [] ==>
          pos <= rs[0].start && rs[0].start + 3 <= rs[0].close && rs[0].close + 2 <= |s|
          && Chained(s, rs[0].close + 2, rs[1..]))
  }

  /** The successive results of `find`, each search resuming after the previous match. */
  function Regions(s: string, pos: nat): (rs: seq<Region>)
    requires pos <= |s|
    ensures Chained(s, pos, rs)
    decreases |s| - pos
  {
    var f := FindFrom(s, pos);
    if f.None? then []
    else
      var rest := Regions(s, f.value.close + 2);
      assert ([f.value] + rest)[1..] == rest;
      [f.value] + rest
  }

  /** `resolve` against an environment, as one step of rendering: the replacement text and the UUID position after it. */
  function Step(env: Env): (string, nat) -> (string, nat) {
    (expr: string, next: nat) => (Resolve(expr, env, next), next + Draws(expr))
  }

  /**
   * The given regions replaced, in order, by what `step` makes of their
   * content (`appendReplacement` per region, then `appendTail` of the text
   * after the last), with the UUID position reached at the end.
   */
  function Splice(s: string, pos: nat, rs: seq<Region>, step: (string, nat) -> (string, nat), next: nat): (string, nat)
    requires Chained(s, pos, rs)
    decreases |rs|
  {
    if rs == [] then (s[pos..], next)
    else
      var (text, after) := step(Content(s, rs[0]), next);
      var (tail, last) := Splice(s, rs[0].close + 2, rs[1..], step, after);
      (s[pos..rs[0].start] + text + tail, last)
  }

  /** The text from pos on with every region `find` reports replaced through `step`. */
  function Render(s: string, pos: nat, step: (string, nat) -> (string, nat), next: nat): (string, nat)
    requires pos <= |s|
  {
    Splice(s, pos, Regions(s, pos), step, next)
  }

  class Service {
    const globals: VariableRepository
    const uuids: IdSource
    const spel: (string, Value) -> Option<string>

    constructor (globals: VariableRepository, uuids: IdSource, spel: (string, Value) -> Option<string>)
      ensures this.globals == globals && this.uuids == uuids && this.spel == spel
    {
      this.globals := globals;
      this.uuids := uuids;
      this.spel := spel;
    }

    /** `resolvePlaceholders`: null stays null. */
    method ResolvePlaceholders(template: Option<string>, ctx: ExecContext) returns (r: Option<string>)
      modifies uuids
      ensures template.None? ==> r.None? && uuids.next == old(uuids.next)
      ensures template.Some? ==> r.Some?
      ensures template.Some? ==>
        (r.value, uuids.next) == Render(template.value, 0, Step(Env(ctx, globals.common.db.kv, uuids.supply, spel)), old(uuids.next))
    {
      if template.None? {
        return None;
      }
      var out := ReplaceFrom(template.value, 0, ctx);
      return Some(out);
    }

    /** The `find`/`appendReplacement` loop from pos, then `appendTail`. */
    method ReplaceFrom(s: string, from: nat, ctx: ExecContext) returns (r: string)
      requires from <= |s|
      modifies uuids
      ensures (r, uuids.next) == Render(s, from, Step(Env(ctx, globals.common.db.kv, uuids.supply, spel)), old(uuids.next))
    {
      ghost var env := Env(ctx, globals.common.db.kv, uuids.supply, spel);
      ghost var step := Step(env);
      ghost var total := Render(s, from, step, uuids.next);
      var sb := "";
      var pos := from;
      var m := FindFrom(s, pos);
      assert sb + total.0 == total.0;
      while m.Some?
        invariant from <= pos <= |s| && m == FindFrom(s, pos)
        invariant env == Env(ctx, globals.common.db.kv, uuids.supply, spel)
        invariant sb + Render(s, pos, step, uuids.next).0 == total.0 && Render(s, pos, step, uuids.next).1 == total.1
        decreases |s| - pos
      {
        ghost var next := uuids.next;
        var expr := Content(s, m.value);
        var resolved := ResolveIn(expr, ctx, env);
        AppendReplacement(s, pos, env, step, next, uuids.next, m.value, sb, resolved, total);
        sb := sb + s[pos..m.value.start] + resolved;
        pos := m.value.close + 2;
        m := FindFrom(s, pos);
      }
      RenderTail(s, pos, step, uuids.next);
      r := sb + s[pos..];
    }

    /** `resolve`, against the environment `env` the repositories and the UUID source make up. */
    method ResolveIn(expr: string, ctx: ExecContext, ghost env: Env) returns (r: string)
      requires env == Env(ctx, globals.common.db.kv, uuids.supply, spel)
      modifies uuids
      ensures env == Env(ctx, globals.common.db.kv, uuids.supply, spel)
      ensures r == Resolve(expr, env, old(uuids.next))
      ensures uuids.next == old(uuids.next) + Draws(expr)
    {
      if IsRandomUuid(expr) {
        r := uuids.Fresh();
      } else if StartsWith(expr, GLOBAL_PREFIX) {
        r := ResolveGlobal(expr, globals.common.db.kv);
      } else {
        r := ResolveDsl(expr, Env(ctx, globals.common.db.kv, uuids.supply, spel));
      }
    }
  }

  /** Applying a rendering step is resolving the content and advancing past the UUIDs it takes. */
  lemma StepIs(env: Env, expr: string, next: nat)
    ensures Step(env)(expr, next) == (Resolve(expr, env, next), next + Draws(expr))
  {
  }

  /** One `appendReplacement` under `resolve`: the copied text, the region's resolution, then rendering resumed after the `}}` with the UUIDs it took. */
  lemma RenderAdvance(s: string, pos: nat, env: Env, step: (string, nat) -> (string, nat), next: nat, after: nat, m: Region)
    requires pos <= |s| && FindFrom(s, pos) == Some(m) && step == Step(env) && after == next + Draws(Content(s, m))
    ensures m.close + 2 <= |s|
    ensures Render(s, pos, step, next).0 == s[pos..m.start] + Resolve(Content(s, m), env, next) + Render(s, m.close + 2, step, after).0
    ensures Render(s, pos, step, next).1 == Render(s, m.close + 2, step, after).1
  {
    StepIs(env, Content(s, m), next);
    assert step(Content(s, m), next) == (Resolve(Content(s, m), env, next), after);
    RenderStep(s, pos, step, next, m);
  }

  /** The text built so far plus the rendering left still make the whole after one more `appendReplacement`. */
  lemma AppendReplacement(s: string, pos: nat, env: Env, step: (string, nat) -> (string, nat), next: nat, after: nat,
                          m: Region, sb: string, resolved: string, total: (string, nat))
    requires pos <= |s| && FindFrom(s, pos) == Some(m) && step == Step(env)
    requires resolved == Resolve(Content(s, m), env, next) && after == next + Draws(Content(s, m))
    requires sb + Render(s, pos, step, next).0 == total.0 && Render(s, pos, step, next).1 == total.1
    ensures m.close + 2 <= |s|
    ensures sb + s[pos..m.start] + resolved + Render(s, m.close + 2, step, after).0 == total.0
      && Render(s, m.close + 2, step, after).1 == total.1
  {
    RenderAdvance(s, pos, env, step, next, after, m);
    var whole := Render(s, pos, step, next).0;
    var rest := Render(s, m.close + 2, step, after).0;
    Regroup(sb, s[pos..m.start], resolved, rest, whole, total.0);
  }

  lemma Regroup(a: string, b: string, c: string, d: string, x: string, t: string)
    requires x == b + c + d && a + x == t
    ensures a + b + c + d == t
  {
  }

  // ------------------------------------------------------------ properties

  /** A template in which no `{{` opens is returned unchanged, and draws no UUID. */
  lemma NoOpeningUnchanged(s: string, step: (string, nat) -> (string, nat), next: nat)
    requires forall i | 0 <= i < |s| :: !PairAt(s, i, '{')
    ensures Render(s, 0, step, next) == (s, next)
  {
    FindFromNoOpening(s, 0);
    RenderTail(s, 0, step, next);
  }

  lemma {:induction false} FindFromNoOpening(s: string, pos: nat)
    requires pos <= |s| && forall i | pos <= i < |s| :: !PairAt(s, i, '{')
    ensures FindFrom(s, pos).None?
    decreases |s| - pos
  {
    if pos < |s| {
      FindFromNoOpening(s, pos + 1);
    }
  }

  /** Text up to a region is copied as it is, the region's resolution follows it verbatim, and rendering resumes after the `}}`. */
  lemma RenderStep(s: string, pos: nat, step: (string, nat) -> (string, nat), next: nat, m: Region)
    requires pos <= |s| && FindFrom(s, pos) == Some(m)
    ensures m.close + 2 <= |s|
    ensures var (text, after) := step(Content(s, m), next);
      var (tail, last) := Render(s, m.close + 2, step, after);
      Render(s, pos, step, next) == (s[pos..m.start] + text + tail, last)
  {
    RegionsStep(s, pos, m);
    SpliceStep(s, pos, m, Regions(s, m.close + 2), step, next);
  }

  /** After a match, the remaining matches are those found from its end. */
  lemma RegionsStep(s: string, pos: nat, m: Region)
    requires pos <= |s| && FindFrom(s, pos) == Some(m)
    ensures m.close + 2 <= |s| && Regions(s, pos) == [m] + Regions(s, m.close + 2)
  {
  }

  lemma SpliceStep(s: string, pos: nat, m: Region, rest: seq<Region>, step: (string, nat) -> (string, nat), next: nat)
    requires Chained(s, pos, [m] + rest)
    ensures Chained(s, m.close + 2, rest)
    ensures var (text, after) := step(Content(s, m), next);
      var (tail, last) := Splice(s, m.close + 2, rest, step, after);
      Splice(s, pos, [m] + rest, step, next) == (s[pos..m.start] + text + tail, last)
  {
    assert ([m] + rest)[0] == m && ([m] + rest)[1..] == rest;
  }

  /** Past the last region the rest of the text is copied as it is, and no UUID is drawn. */
  lemma RenderTail(s: string, pos: nat, step: (string, nat) -> (string, nat), next: nat)
    requires pos <= |s| && FindFrom(s, pos).None?
    ensures Render(s, pos, step, next) == (s[pos..], next)
  {
    assert Regions(s, pos) == [];
  }

  /** `random.uuid` in any letter case takes the next UUID, before the `global.` and DSL branches are looked at. */
  lemma RandomUuidAnyCase(expr: string, env: Env, next: nat)
    requires EqualsIgnoreCase(RANDOM_UUID, expr)
    ensures Step(env)(expr, next) == (env.supply(next), next + 1)
  {
    RandomUuidIsEqualsIgnoreCase(expr);
    StepIs(env, expr, next);
  }

  /** The test on the lower case agrees with `equalsIgnoreCase` both ways. */
  lemma RandomUuidIsEqualsIgnoreCase(expr: string)
    ensures IsRandomUuid(expr) <==> EqualsIgnoreCase(RANDOM_UUID, expr)
  {
    RandomUuidIsLower();
  }

  lemma RandomUuidIsLower()
    ensures LowerCase(RANDOM_UUID) == RANDOM_UUID
  {
    var w := RANDOM_UUID;
    assert forall i | 0 <= i < |w| :: !('A' <= w[i] <= 'Z');
    LowerCaseOfLower(w);
  }

  /** `global.` with nothing but blanks after it is "". */
  lemma EmptyGlobalKey(expr: string, env: Env, next: nat)
    requires StartsWith(expr, GLOBAL_PREFIX) && Trim(expr[|GLOBAL_PREFIX|..]) == []
    ensures Resolve(expr, env, next) == ""
  {
    assert |expr| >= 7 && expr[0] == 'g';
    assert !IsRandomUuid(expr) by {
      assert LowerCase(RANDOM_UUID)[0] == 'r';
      assert LowerCase(expr)[0] == 'g';
    }
  }

  /**
   * The repository's `save` writes at the bare key and `findByKey` reads
   * `global_variable:<key>`, so saving a variable never changes what
   * `global.<key>` resolves to.
   */
  lemma GlobalBlindToSave(expr: string, kv: map<string, Stored>, variable: GlobalVariable)
    requires StartsWith(expr, GLOBAL_PREFIX)
    requires variable.key == Some(Trim(expr[|GLOBAL_PREFIX|..]))
    ensures ResolveGlobal(expr, kv[variable.key.value := ObjectRec(variable.value)]) == ResolveGlobal(expr, kv)
  {
    SaveInvisibleToFindByKey(kv, variable);
  }

  /** A DSL expression with no dot, a non-integer order, or no context entry at the order resolves to "". */
  lemma DslEdgeCases(expr: string, env: Env)
    ensures IndexOf(expr, '.') == -1 ==> ResolveDsl(expr, env) == ""
    ensures IndexOf(expr, '.') >= 0 && ParseInt(expr[..IndexOf(expr, '.')]).None? ==> ResolveDsl(expr, env) == ""
    ensures (IndexOf(expr, '.') >= 0 && ParseInt(expr[..IndexOf(expr, '.')]).Some?
             && ContextGet(env.ctx, ParseInt(expr[..IndexOf(expr, '.')]).value).Null?) ==> ResolveDsl(expr, env) == ""
  {
  }

  /** A property path through a missing link prints as "" rather than failing. */
  lemma {:induction false} MissingLinkIsEmpty(v: Value, names: seq<string>)
    requires v.Null?
    ensures StrOf(Navigate(v, names)) == ""
  {
  }

  /**
   * A template that is one region, `{{e}}` with a group free of `}` and of
   * line terminators, renders as exactly what its trimmed group resolves to.
   */
  lemma WholeTemplateRegion(e: string, step: (string, nat) -> (string, nat), next: nat)
    requires |e| >= 1 && '}' !in e && forall i | 0 <= i < |e| :: !Constant.IsLineTerminator(e[i])
    ensures Render("{{" + e + "}}", 0, step, next) == step(Trim(e), next)
  {
    var s := "{{" + e + "}}";
    var c := |e| + 2;
    assert PairAt(s, c, '}');
    forall j | 2 <= j < c ensures !PairAt(s, j, '}') && !Constant.IsLineTerminator(s[j]) {
      assert s[j] == e[j - 2];
    }
    CloseSkips(s, 0, 2, c);
    assert MatchAt(s, 0) == Some(c);
    assert FindFrom(s, 0) == Some(Region(0, c));
    RenderStep(s, 0, step, next, Region(0, c));
    assert s[2..c] == e;
    var (text, after) := step(Trim(e), next);
    RenderTail(s, c + 2, step, after);
    assert s[c + 2..] == [] && s[0..0] == [];
    assert s[0..0] + text + s[c + 2..] == text;
  }

  /**
   * `<order>.<path>` with a plain property path reads the path through the
   * context entry at that order: the order prints and parses back, and no
   * dot in it cuts the expression early.
   */
  lemma PropertyPathResolves(order: int, path: string, env: Env)
    requires IsInt32(order) && !ContextGet(env.ctx, order).Null? && IsPropertyPath(path)
    ensures ResolveDsl(IntToString(order) + "." + path, env) == StrOf(Navigate(ContextGet(env.ctx, order), Pieces(path, '.')))
  {
    var o := IntToString(order);
    var e := o + "." + path;
    NoDotInOrder(order);
    IndexOfAfter(o, '.', path);
    assert e[..|o|] == o && e[|o| + 1..] == path;
    ParseIntToString(order);
  }

  lemma NoDotInOrder(i: int)
    ensures '.' !in IntToString(i)
  {
    var t := IntToString(i);
    forall j | 0 <= j < |t|
      ensures t[j] != '.'
    {
      if i < 0 && j > 0 {
        assert t[j] == NatToString(-i)[j - 1];
      }
    }
  }

  /** Scanning for the close passes over characters that neither end the group nor break it. */
  lemma {:induction false} CloseSkips(s: string, start: nat, k: nat, c: nat)
    requires start + 2 <= k <= c && start + 3 <= c && PairAt(s, c, '}')
    requires forall j | k <= j < c :: !PairAt(s, j, '}') && !Constant.IsLineTerminator(s[j])
    ensures CloseFrom(s, start, k) == Some(c)
    decreases c - k
  {
    if k < c {
      CloseSkips(s, start, k + 1, c);
    }
  }

  /** The search passes over positions where no match opens. */
  lemma {:induction false} FindSkips(s: string, pos: nat, at: nat)
    requires pos <= at < |s| && MatchAt(s, at).Some?
    requires forall i | pos <= i < at :: MatchAt(s, i).None?
    ensures FindFrom(s, pos) == Some(Region(at, MatchAt(s, at).value))
    decreases at - pos
  {
    if pos < at {
      FindSkips(s, pos + 1, at);
    }
  }
}
