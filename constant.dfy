/**
 * The path delimiter and the condition blacklist. The blacklist is the
 * regular expression `(.*[;]+.*|.*[\\]+.*)` applied with whole-string
 * `matches`; it is modelled by the predicate `IsBlacklisted` and proved
 * equal to the language of the expression. Because `.` does not match a
 * line terminator, that guard lets a semicolon after a newline through;
 * the eligibility checks apply it as written. `IsForbiddenCondition` is
 * the guard as intended, proved beside it.
 */
module Constant {

  const DELIMITER: string := "/"

  /** The regular expression text, as the Java string literal denotes it. */
  const CONDITION_BLACKLIST_REGEX: string := "(.*[;]+.*|.*[\\\\]+.*)"

  /** The characters `.` does not match without DOTALL: \n, \r, NEL, LINE SEPARATOR, PARAGRAPH SEPARATOR. */
  predicate IsLineTerminator(c: char) {
    c == '\n' || c == '\r' || c == '\U{85}' || c == '\U{2028}' || c == '\U{2029}'
  }

  predicate HasLineTerminator(s: string) {
    exists i | 0 <= i < |s| :: IsLineTerminator(s[i])
  }

  /** `CONDITION_BLACKLIST_REGEX` matched against the whole of s. */
  predicate IsBlacklisted(s: string) {
    !HasLineTerminator(s) && (';' in s || '\\' in s)
  }

  // ------------------------------------------ the language of the expression

  /** `.*` */
  ghost predicate DotStar(s: string) {
    forall i | 0 <= i < |s| :: !IsLineTerminator(s[i])
  }

  /** `[c]+` */
  ghost predicate OneOrMore(c: char, s: string) {
    |s| >= 1 && forall i | 0 <= i < |s| :: s[i] == c
  }

  /** `.*[c]+.*` */
  ghost predicate Branch(c: char, s: string) {
    exists i, j | 0 <= i < j <= |s| :: DotStar(s[..i]) && OneOrMore(c, s[i..j]) && DotStar(s[j..])
  }

  /** The whole expression: two alternatives. */
  ghost predicate InBlacklistLanguage(s: string) {
    Branch(';', s) || Branch('\\', s)
  }

  lemma BranchIff(c: char, s: string)
    requires !IsLineTerminator(c)
    ensures Branch(c, s) <==> !HasLineTerminator(s) && c in s
  {
    if Branch(c, s) {
      var i, j :| 0 <= i < j <= |s| && DotStar(s[..i]) && OneOrMore(c, s[i..j]) && DotStar(s[j..]);
      assert s[i..j][0] == s[i];
      forall k | 0 <= k < |s| ensures !IsLineTerminator(s[k]) {
        if k < i { assert s[..i][k] == s[k]; }
        else if k < j { assert s[i..j][k - i] == s[k]; }
        else { assert s[j..][k - j] == s[k]; }
      }
    }
    if !HasLineTerminator(s) && c in s {
      var k :| 0 <= k < |s| && s[k] == c;
      assert s[k..k + 1] == [c];
      assert DotStar(s[..k]) && OneOrMore(c, s[k..k + 1]) && DotStar(s[k + 1..]);
    }
  }

  /** The predicate is exactly the regular expression's language. */
  lemma BlacklistIsRegexLanguage(s: string)
    ensures IsBlacklisted(s) <==> InBlacklistLanguage(s)
  {
    BranchIff(';', s);
    BranchIff('\\', s);
  }

  /** `.` refuses a line terminator, so a newline lets a semicolon through the guard. */
  lemma LineTerminatorPassesGuard(s: string)
    requires HasLineTerminator(s)
    ensures !InBlacklistLanguage(s)
  {
    BlacklistIsRegexLanguage(s);
  }

  /** `"1\n;2"`: a newline ahead of the semicolon takes the condition past the guard. */
  lemma NewlineSemicolonPassesGuard()
    ensures !IsBlacklisted("1\n;2") && ';' in "1\n;2"
  {
    assert IsLineTerminator("1\n;2"[1]);
    assert "1\n;2"[2] == ';';
  }

  // --------------------------------------------- the guard as intended

  /**
   * The guard the expression evidently means: with DOTALL, `.` matches
   * any character, so every condition holding a semicolon or a
   * backslash is flagged wherever it sits.
   */
  predicate IsForbiddenCondition(s: string) {
    ';' in s || '\\' in s
  }

  /** `.*` under DOTALL accepts anything, so `.*[c]+.*` is: some run of c inside s. */
  ghost predicate DotAllBranch(c: char, s: string) {
    exists i, j | 0 <= i < j <= |s| :: OneOrMore(c, s[i..j])
  }

  lemma DotAllBranchIff(c: char, s: string)
    ensures DotAllBranch(c, s) <==> c in s
  {
    if DotAllBranch(c, s) {
      var i, j :| 0 <= i < j <= |s| && OneOrMore(c, s[i..j]);
      assert s[i..j][0] == s[i];
    }
    if c in s {
      var k :| 0 <= k < |s| && s[k] == c;
      assert s[k..k + 1] == [c];
    }
  }

  /**
   * The corrected guard is the language of the expression under DOTALL,
   * it flags everything the guard as written flags, and the two differ
   * exactly on conditions with a line terminator.
   */
  lemma ForbiddenIsDotAllLanguage(s: string)
    ensures IsForbiddenCondition(s) <==> DotAllBranch(';', s) || DotAllBranch('\\', s)
    ensures InBlacklistLanguage(s) ==> IsForbiddenCondition(s)
    ensures IsForbiddenCondition(s) && !InBlacklistLanguage(s) <==> IsForbiddenCondition(s) && HasLineTerminator(s)
  {
    DotAllBranchIff(';', s);
    DotAllBranchIff('\\', s);
    BlacklistIsRegexLanguage(s);
  }

  /** A condition with neither `;` nor a backslash is never flagged. */
  lemma PlainTextNeverFlagged(s: string)
    requires ';' !in s && '\\' !in s
    ensures !InBlacklistLanguage(s)
  {
    BlacklistIsRegexLanguage(s);
  }
}
