/**
 * URL template matching (RequestUrlService). A template such as
 * `/orders/:id/items` is split on `/`; a segment that starts with `:`
 * matches any request segment and binds it as a path variable.
 */
module RequestUrlService {
  import opened JavaLang
  import opened Values
  import Constant

  /** Splitting on DELIMITER, with String.split's treatment of empty pieces. */
  function SplitPath(s: string): seq<string> {
    Split(s, Constant.DELIMITER[0])
  }

  predicate IsVariable(segment: string) { StartsWith(segment, ":") }

  predicate SegmentMatches(template: string, request: string) {
    IsVariable(template) || template == request
  }

  /** What `urlMatches` decides: equal segment counts and every template segment matching its partner. */
  predicate PartsMatch(template: seq<string>, request: seq<string>) {
    |template| == |request| && forall i | 0 <= i < |template| :: SegmentMatches(template[i], request[i])
  }

  method UrlMatches(mockUrl: string, requestUrlParts: seq<string>) returns (matches: bool)
    ensures matches == PartsMatch(SplitPath(mockUrl), requestUrlParts)
  {
    var mockUrlParts := SplitPath(mockUrl);
    if |mockUrlParts| != |requestUrlParts| {
      return false;
    }
    var i := 0;
    while i < |mockUrlParts|
      invariant 0 <= i <= |mockUrlParts|
      invariant forall j | 0 <= j < i :: SegmentMatches(mockUrlParts[j], requestUrlParts[j])
    {
      if !StartsWith(mockUrlParts[i], ":") && mockUrlParts[i] != requestUrlParts[i] {
        return false;
      }
      i := i + 1;
    }
    return true;
  }

  /** The path variables bound by the first n template segments, HashMap.put in segment order. */
  function Bindings(template: seq<string>, request: seq<string>, n: nat): Entries
    requires n <= |template| && n <= |request|
  {
    if n == 0 then []
    else
      var prev := Bindings(template, request, n - 1);
      var t := template[n - 1];
      if IsVariable(t) then Put(prev, t[1..], Str(request[n - 1])) else prev
  }

  /**
   * What `extractPathVariables` returns for already split paths: the
   * bindings, or ArrayIndexOutOfBoundsException when the request has
   * fewer segments than the template (every template index is read).
   */
  function PathVariables(template: seq<string>, request: seq<string>): (r: Result<Entries>)
    ensures r.Ok? <==> |template| <= |request|
  {
    if |template| <= |request| then Ok(Bindings(template, request, |template|)) else Err(IndexOutOfBounds)
  }

  method ExtractPathVariables(mockUrl: string, requestUrl: string) returns (r: Result<Entries>)
    ensures r == PathVariables(SplitPath(mockUrl), SplitPath(requestUrl))
  {
    var requestUrlParts := SplitPath(requestUrl);
    var mockUrlParts := SplitPath(mockUrl);
    var pathVariables: Entries := [];
    var i := 0;
    while i < |mockUrlParts|
      invariant 0 <= i <= |mockUrlParts|
      invariant i <= |requestUrlParts| ==> pathVariables == Bindings(mockUrlParts, requestUrlParts, i)
      invariant i > |requestUrlParts| ==> false
    {
      if i >= |requestUrlParts| {
        return Err(IndexOutOfBounds);
      }
      var mockUrlPart := mockUrlParts[i];
      var requestUrlPart := requestUrlParts[i];
      if StartsWith(mockUrlPart, ":") {
        pathVariables := Put(pathVariables, mockUrlPart[1..], Str(requestUrlPart));
      }
      i := i + 1;
    }
    return Ok(pathVariables);
  }

  /** `requestUri.substring(("/" + groupName).length())`: no check that the prefix is really there. */
  function GetRequestPath(groupName: string, requestUri: string): (r: Result<string>)
    ensures r.Ok? <==> |groupName| + 1 <= |requestUri|
    ensures r.Ok? ==> |r.value| == |requestUri| - |groupName| - 1
  {
    var n := |Constant.DELIMITER + groupName|;
    if n <= |requestUri| then Ok(requestUri[n..]) else Err(IndexOutOfBounds)
  }

  // ------------------------------------------------------------- properties

  lemma GetRequestPathStripsGroup(groupName: string, rest: string)
    ensures GetRequestPath(groupName, "/" + groupName + rest) == Ok(rest)
  {
    var u := "/" + groupName + rest;
    assert u[|groupName| + 1..] == rest;
  }

  /** `/a/b/` and `/a/b` split alike, so a trailing slash never changes a match. */
  lemma TrailingSlashIgnored(s: string)
    requires s != ""
    ensures SplitPath(s + "/") == SplitPath(s)
  {
    PiecesAppendDelimiter(s, '/');
    var ps := Pieces(s, '/');
    assert (ps + [""])[..|ps|] == ps;
    assert '/' in s + "/" by { assert (s + "/")[|s|] == '/'; }
    assert DropTrailingEmpty(ps + [""]) == DropTrailingEmpty(ps);
    if '/' !in s {
      PiecesWithoutDelimiter(s, '/');
      assert DropTrailingEmpty([s]) == [s];
    }
  }


  lemma VariableSegment(segment: string, name: string)
    ensures (IsVariable(segment) && segment[1..] == name) <==> segment == ":" + name
  {
    if segment == ":" + name {
      assert segment[..1] == ":";
    }
    if IsVariable(segment) && segment[1..] == name {
      assert segment == segment[..1] + segment[1..];
    }
  }

  /** A name is bound exactly when some template segment among the first n is `:name`. */
  lemma {:induction false} BoundNames(template: seq<string>, request: seq<string>, n: nat, name: string)
    requires n <= |template| <= |request|
    ensures name in Keys(Bindings(template, request, n)) <==> exists i | 0 <= i < n :: template[i] == ":" + name
  {
    if n > 0 {
      BoundNames(template, request, n - 1, name);
      VariableSegment(template[n - 1], name);
      var t := template[n - 1];
      if IsVariable(t) {
        var prev := Bindings(template, request, n - 1);
        assert Keys(Put(prev, t[1..], Str(request[n - 1]))) == Keys(prev) || Keys(Put(prev, t[1..], Str(request[n - 1]))) == Keys(prev) + [t[1..]];
      }
    }
  }

  /**
   * When the request URL matches the template, extraction succeeds and
   * binds exactly the names the template's `:name` segments declare.
   */
  lemma MatchedUrlBindsItsVariables(mockUrl: string, requestUrl: string, name: string)
    requires PartsMatch(SplitPath(mockUrl), SplitPath(requestUrl))
    ensures var r := PathVariables(SplitPath(mockUrl), SplitPath(requestUrl));
      r.Ok? && (name in Keys(r.value) <==> exists i | 0 <= i < |SplitPath(mockUrl)| :: SplitPath(mockUrl)[i] == ":" + name)
  {
    var template, request := SplitPath(mockUrl), SplitPath(requestUrl);
    BoundNames(template, request, |template|, name);
  }

  /** A variable bound twice keeps the request segment aligned with its last occurrence. */
  lemma {:induction false} BoundValue(template: seq<string>, request: seq<string>, n: nat, i: nat, name: string)
    requires n <= |template| <= |request|
    requires i < n && template[i] == ":" + name
    requires forall j | i < j < n :: template[j] != ":" + name
    ensures Lookup(Bindings(template, request, n), name) == Str(request[i])
  {
    var prev := Bindings(template, request, n - 1);
    var t := template[n - 1];
    VariableSegment(t, name);
    if i == n - 1 {
      assert Bindings(template, request, n) == Put(prev, name, Str(request[i]));
      LookupPut(prev, name, Str(request[i]), name);
    } else {
      BoundValue(template, request, n - 1, i, name);
      if IsVariable(t) {
        assert t[1..] != name;
        assert Bindings(template, request, n) == Put(prev, t[1..], Str(request[n - 1]));
        LookupPut(prev, t[1..], Str(request[n - 1]), name);
      } else {
        assert Bindings(template, request, n) == prev;
      }
    }
  }
}
