/** Form validators (src/utils/validations.ts): the e-mail pattern and the two password
    character-class tests. */
module Validations {
  import opened Js

  /** `[a-zA-Z0-9._%+-]` */
  predicate IsLocalChar(c: char) {
    IsAsciiLetter(c) || IsDigit(c) || c == '.' || c == '_' || c == '%' || c == '+' || c == '-'
  }

  /** `[a-zA-Z0-9.-]` */
  predicate IsDomainChar(c: char) {
    IsAsciiLetter(c) || IsDigit(c) || c == '.' || c == '-'
  }

  predicate AllOf(s: string, p: char -> bool) {
    forall k :: 0 <= k < |s| ==> p(s[k])
  }

  /** The split of `email` into local part `email[..at]`, domain `email[at + 1..dot]` and
      top-level domain `email[dot + 1..]` that the pattern
      `^[a-zA-Z0-9._%+-]+@[a-zA-Z0-9.-]+\.[a-zA-Z]{2,}$` matches. */
  predicate MatchesAt(email: string, at: nat, dot: nat) {
    && 0 < at && at + 1 < dot && dot + 2 < |email|
    && email[at] == '@' && email[dot] == '.'
    && AllOf(email[..at], IsLocalChar)
    && AllOf(email[at + 1..dot], IsDomainChar)
    && AllOf(email[dot + 1..], IsAsciiLetter)
  }

  /** The whole string matches the pattern. */
  ghost predicate MatchesPattern(email: string) {
    exists at: nat, dot: nat :: MatchesAt(email, at, dot)
  }

  /** `validateEmail(email)`: the only candidate split takes the first '@' (no class
      before it admits '@') and the last '.' (the top-level domain admits no '.'). */
  function ValidateEmail(email: string): (valid: bool)
    ensures valid <==> MatchesPattern(email)
  {
    var at := IndexOf(email, '@');
    var dot := LastIndexOf(email, '.');
    PatternUsesCandidate(email);
    dot >= 0 && MatchesAt(email, at, dot)
  }

  lemma PatternUsesCandidate(email: string)
    ensures MatchesPattern(email) ==>
      var dot := LastIndexOf(email, '.');
      dot >= 0 && MatchesAt(email, IndexOf(email, '@'), dot)
  {
    if MatchesPattern(email) {
      var a: nat, d: nat :| MatchesAt(email, a, d);
      CandidateSplit(email, a, d);
    }
  }

  /** Any split the pattern admits is the first '@' and the last '.'. */
  lemma CandidateSplit(email: string, at: nat, dot: nat)
    requires MatchesAt(email, at, dot)
    ensures at == IndexOf(email, '@') && dot == LastIndexOf(email, '.')
  {
    assert forall k :: 0 <= k < at ==> email[k] == email[..at][k];
    assert forall k :: dot < k < |email| ==> email[k] == email[dot + 1..][k - dot - 1];
  }

  /** Every accepted address has exactly one '@' and no whitespace, and its text after
      the last '.' is at least two ASCII letters. */
  lemma AcceptedEmailShape(email: string)
    requires ValidateEmail(email)
    ensures forall i, j :: 0 <= i < j < |email| && email[i] == '@' ==> email[j] != '@'
    ensures exists i :: 0 <= i < |email| && email[i] == '@'
    ensures forall i :: 0 <= i < |email| ==> !IsWhitespace(email[i])
    ensures var dot := LastIndexOf(email, '.');
      0 <= dot && |email| - dot - 1 >= 2 && AllOf(email[dot + 1..], IsAsciiLetter)
  {
    var at, dot := AcceptedSplit(email);
    SplitShape(email, at, dot);
  }

  lemma AcceptedSplit(email: string) returns (at: nat, dot: nat)
    requires ValidateEmail(email)
    ensures at == IndexOf(email, '@') && dot == LastIndexOf(email, '.')
    ensures MatchesAt(email, at, dot)
  {
    at, dot := IndexOf(email, '@'), LastIndexOf(email, '.');
  }

  lemma SplitShape(email: string, at: nat, dot: nat)
    requires MatchesAt(email, at, dot)
    ensures forall i, j :: 0 <= i < j < |email| && email[i] == '@' ==> email[j] != '@'
    ensures exists i :: 0 <= i < |email| && email[i] == '@'
    ensures forall i :: 0 <= i < |email| ==> !IsWhitespace(email[i])
    ensures |email| - dot - 1 >= 2 && AllOf(email[dot + 1..], IsAsciiLetter)
  {
    forall i | 0 <= i < |email|
      ensures !IsWhitespace(email[i]) && (email[i] == '@' ==> i == at)
    {
      CharOfMatch(email, at, dot, i);
    }
  }

  lemma CharOfMatch(email: string, at: nat, dot: nat, i: nat)
    requires MatchesAt(email, at, dot) && i < |email|
    ensures !IsWhitespace(email[i]) && (email[i] == '@' ==> i == at)
  {
    if i < at {
      assert email[i] == email[..at][i];
      PatternCharIsPrintable(email[i]);
    } else if at < i < dot {
      assert email[i] == email[at + 1..dot][i - at - 1];
      PatternCharIsPrintable(email[i]);
    } else if dot < i {
      assert email[i] == email[dot + 1..][i - dot - 1];
      PatternCharIsPrintable(email[i]);
    }
  }

  lemma PatternCharIsPrintable(c: char)
    requires IsLocalChar(c) || IsDomainChar(c) || IsAsciiLetter(c) || c == '.'
    ensures !IsWhitespace(c) && c != '@'
  {
  }

  /** `containsUppercase(password)`: `/[A-Z]/.test(password)`. */
  function ContainsUppercase(password: string): (found: bool)
    ensures found <==> exists i :: 0 <= i < |password| && IsUpperAscii(password[i])
  {
    if password == [] then false
    else if IsUpperAscii(password[0]) then true
    else
      var rest := ContainsUppercase(password[1..]);
      assert forall i :: 1 <= i < |password| ==> password[i] == password[1..][i - 1];
      rest
  }

  /** `containerLowercase(password)`: `/[a-z]/.test(password)`. */
  function ContainerLowercase(password: string): (found: bool)
    ensures found <==> exists i :: 0 <= i < |password| && IsLowerAscii(password[i])
  {
    if password == [] then false
    else if IsLowerAscii(password[0]) then true
    else
      var rest := ContainerLowercase(password[1..]);
      assert forall i :: 1 <= i < |password| ==> password[i] == password[1..][i - 1];
      rest
  }
}
