/**
 * The e-mail format accepted at sign-up: a whole-string match of
 * `[A-Z0-9a-z._%+-]+@[A-Za-z0-9.-]+\.[A-Za-z]{2,64}`. `MatchesEmailPattern`
 * states the pattern as a decomposition of the string; `IsValidEmail` decides
 * it by scanning, and the two lemmas at the end show that they agree.
 */
module EmailFormat {

  predicate IsAsciiLetter(c: char) {
    'A' <= c <= 'Z' || 'a' <= c <= 'z'
  }

  predicate IsAsciiDigit(c: char) {
    '0' <= c <= '9'
  }

  /** `[A-Z0-9a-z._%+-]` */
  predicate IsLocalChar(c: char) {
    IsAsciiLetter(c) || IsAsciiDigit(c) || c == '.' || c == '_' || c == '%' || c == '+' || c == '-'
  }

  /** `[A-Za-z0-9.-]` */
  predicate IsDomainChar(c: char) {
    IsAsciiLetter(c) || IsAsciiDigit(c) || c == '.' || c == '-'
  }

  /** `[A-Z0-9a-z._%+-]+` */
  predicate IsLocalPart(s: string) {
    |s| > 0 && forall i :: 0 <= i < |s| ==> IsLocalChar(s[i])
  }

  /** `[A-Za-z0-9.-]+` */
  predicate IsDomainPart(s: string) {
    |s| > 0 && forall i :: 0 <= i < |s| ==> IsDomainChar(s[i])
  }

  /** `[A-Za-z]{2,64}` */
  predicate IsTopLevelPart(s: string) {
    2 <= |s| <= 64 && forall i :: 0 <= i < |s| ==> IsAsciiLetter(s[i])
  }

  ghost predicate IsEmailSplit(s: string, local: string, domain: string, tld: string) {
    s == local + "@" + domain + "." + tld && IsLocalPart(local) && IsDomainPart(domain) && IsTopLevelPart(tld)
  }

  /** The whole string matches the pattern. */
  ghost predicate MatchesEmailPattern(s: string) {
    exists local, domain, tld :: IsEmailSplit(s, local, domain, tld)
  }

  /** Position of the first `c` in `s`, or `|s|` if there is none. */
  function IndexOf(s: string, c: char): (i: nat)
    ensures i <= |s|
    ensures i < |s| ==> s[i] == c
    ensures forall k :: 0 <= k < i ==> s[k] != c
  {
    if s == [] then 0
    else if s[0] == c then 0
    else 1 + IndexOf(s[1..], c)
  }

  /** Position of the last `c` in `s`, or -1 if there is none. */
  function LastIndexOf(s: string, c: char): (i: int)
    ensures -1 <= i < |s|
    ensures 0 <= i ==> s[i] == c
    ensures forall k :: i < k < |s| ==> s[k] != c
  {
    if s == [] then -1
    else if s[|s| - 1] == c then |s| - 1
    else LastIndexOf(s[..|s| - 1], c)
  }

  /**
   * The check: the local part runs up to the first `@` (it cannot contain
   * one), and the top-level part follows the last `.` (it cannot contain one).
   */
  function IsValidEmail(s: string): bool {
    var at := IndexOf(s, '@');
    if at == |s| || !IsLocalPart(s[..at]) then false
    else
      var rest := s[at + 1..];
      var dot := LastIndexOf(rest, '.');
      dot >= 0 && IsDomainPart(rest[..dot]) && IsTopLevelPart(rest[dot + 1..])
  }

  lemma IsValidEmailSound(s: string)
    ensures IsValidEmail(s) ==> MatchesEmailPattern(s)
  {
    if IsValidEmail(s) {
      var at := IndexOf(s, '@');
      var rest := s[at + 1..];
      var dot := LastIndexOf(rest, '.');
      var local, domain, tld := s[..at], rest[..dot], rest[dot + 1..];
      assert rest == domain + "." + tld;
      assert s == local + "@" + rest;
      assert IsEmailSplit(s, local, domain, tld);
    }
  }

  /** No local-part character is an `@`, so the first `@` is the one after the local part. */
  lemma FirstAtEndsLocalPart(local: string, rest: string)
    requires IsLocalPart(local)
    ensures IndexOf(local + "@" + rest, '@') == |local|
  {
    var s := local + "@" + rest;
    assert s[|local|] == '@';
    assert forall k :: 0 <= k < |local| ==> s[k] == local[k];
  }

  /** No top-level character is a `.`, so the last `.` is the one before the top-level part. */
  lemma LastDotStartsTopLevel(domain: string, tld: string)
    requires IsTopLevelPart(tld)
    ensures LastIndexOf(domain + "." + tld, '.') == |domain|
  {
    var rest := domain + "." + tld;
    assert rest[|domain|] == '.';
    assert forall k :: |domain| < k < |rest| ==> rest[k] == tld[k - |domain| - 1];
  }

  lemma IsValidEmailComplete(s: string)
    ensures MatchesEmailPattern(s) ==> IsValidEmail(s)
  {
    if MatchesEmailPattern(s) {
      var local, domain, tld :| IsEmailSplit(s, local, domain, tld);
      var rest := domain + "." + tld;
      assert s == local + "@" + rest;
      FirstAtEndsLocalPart(local, rest);
      assert s[..|local|] == local;
      assert s[|local| + 1..] == rest;
      LastDotStartsTopLevel(domain, tld);
      assert rest[..|domain|] == domain;
      assert rest[|domain| + 1..] == tld;
    }
  }

  /** The check decides the pattern exactly. */
  lemma IsValidEmailCorrect(s: string)
    ensures IsValidEmail(s) <==> MatchesEmailPattern(s)
  {
    IsValidEmailSound(s);
    IsValidEmailComplete(s);
  }
}
