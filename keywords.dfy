/** Search keywords for user profiles (src/utils/keywords.ts): the lower-cased prefixes
    of length three and more of a name, collected for several spellings of the user's
    name into an insertion-ordered set. */
module Keywords {
  import opened Wrappers
  import opened Js

  /** `generateKeywords(name)`: the running prefix starts as the first two lower-cased
      characters and grows by one character per remaining character, each step being
      pushed; so the prefixes of length 3 .. n, shortest first. */
  method GenerateKeywords(name: string) returns (keywords: seq<string>)
    ensures |keywords| == if |name| < 2 then 0 else |name| - 2
    ensures forall k :: 0 <= k < |keywords| ==> keywords[k] == ToLowerCase(name)[..k + 3]
  {
    var lower := ToLowerCase(name);
    var curName := if |lower| < 2 then lower else lower[..2];
    keywords := [];
    var i := 2;
    while i < |lower|
      invariant 2 <= i <= if |lower| < 2 then 2 else |lower|
      invariant curName == if |lower| < 2 then lower else lower[..i]
      invariant |keywords| == if |lower| < 2 then 0 else i - 2
      invariant forall k :: 0 <= k < |keywords| ==> keywords[k] == lower[..k + 3]
    {
      curName := curName + [lower[i]];
      assert curName == lower[..i + 1];
      keywords := keywords + [curName];
      i := i + 1;
    }
  }

  /** The prefixes `GenerateKeywords` produces, as a value for specifications. */
  ghost function KeywordsOf(name: string): (keywords: seq<string>)
    ensures |keywords| == if |name| < 2 then 0 else |name| - 2
    ensures forall k :: 0 <= k < |keywords| ==> keywords[k] == ToLowerCase(name)[..k + 3]
  {
    var lower := ToLowerCase(name);
    seq(if |name| < 2 then 0 else |name| - 2, k requires 0 <= k < |name| - 2 => lower[..k + 3])
  }

  lemma KeywordsOfIsGenerated(name: string, keywords: seq<string>)
    requires |keywords| == if |name| < 2 then 0 else |name| - 2
    requires forall k :: 0 <= k < |keywords| ==> keywords[k] == ToLowerCase(name)[..k + 3]
    ensures keywords == KeywordsOf(name)
  {
  }

  /** No two elements of `s` are equal. */
  predicate NoDuplicates<T(==)>(s: seq<T>) {
    forall i, j :: 0 <= i < j < |s| ==> s[i] != s[j]
  }

  /** The elements of `s` in order of first occurrence, each once: what adding them one
      by one to a JavaScript `Set` and reading it back with `Array.from` yields. */
  function Distinct<T(==)>(s: seq<T>): seq<T> {
    if s == [] then []
    else
      var d := Distinct(s[..|s| - 1]);
      if s[|s| - 1] in d then d else d + [s[|s| - 1]]
  }

  /** `Distinct` keeps every element, adds none and repeats none. */
  lemma {:induction false} DistinctIsSet<T>(s: seq<T>)
    ensures NoDuplicates(Distinct(s))
    ensures forall x :: x in Distinct(s) <==> x in s
  {
    if s != [] {
      var init := s[..|s| - 1];
      DistinctIsSet(init);
      assert s == init + [s[|s| - 1]];
    }
  }

  /** Later additions only append: the order of first insertion is kept. */
  lemma {:induction false} DistinctOfPrefix<T>(s: seq<T>, n: nat)
    requires n <= |s|
    ensures Distinct(s[..n]) <= Distinct(s)
    decreases |s|
  {
    if n < |s| {
      var init := s[..|s| - 1];
      assert s[..n] == init[..n];
      DistinctOfPrefix(init, n);
    } else {
      assert s[..n] == s;
    }
  }

  /** Adds each element of `items` to the insertion-ordered set `acc` (`result.add`). */
  method AddAll<T(==)>(acc: seq<T>, items: seq<T>, ghost before: seq<T>) returns (r: seq<T>)
    requires acc == Distinct(before)
    ensures r == Distinct(before + items)
  {
    r := acc;
    var i := 0;
    assert before + items[..0] == before;
    while i < |items|
      invariant 0 <= i <= |items|
      invariant r == Distinct(before + items[..i])
    {
      assert (before + items[..i + 1])[..|before + items[..i + 1]| - 1] == before + items[..i];
      r := if items[i] in r then r else r + [items[i]];
      i := i + 1;
    }
    assert items[..i] == items;
  }

  /** The profile fields the keywords are built from. */
  datatype KeywordUser = KeywordUser(firstName: string, lastName: Option<string>, username: string)

  /** The name spellings in the order the source adds their keywords. */
  function Spellings(user: KeywordUser): (names: seq<string>)
    ensures |names| == if TruthyStr(user.lastName) then 3 else 2
    ensures names[|names| - 1] == user.username
  {
    if TruthyStr(user.lastName) then
      [user.firstName + " " + user.lastName.value, user.lastName.value + " " + user.firstName,
       user.username]
    else [user.firstName, user.username]
  }

  /** The keywords of every spelling, concatenated in order. */
  ghost function AllKeywords(names: seq<string>): seq<string> {
    if names == [] then [] else AllKeywords(names[..|names| - 1]) + KeywordsOf(names[|names| - 1])
  }

  /** `generateUserKeywords(user)`: `None` for a missing user; otherwise the keywords of
      "first last", "last first" and the username when lastName is non-empty, of the
      first name and the username otherwise, without duplicates, in first-insertion
      order. */
  method GenerateUserKeywords(user: Option<KeywordUser>) returns (r: Option<seq<string>>)
    ensures user.None? <==> r.None?
    ensures user.Some? ==> r.value == Distinct(AllKeywords(Spellings(user.value)))
  {
    if user.None? {
      return None;
    }
    var names := Spellings(user.value);
    var result: seq<string> := [];
    var i := 0;
    while i < |names|
      invariant 0 <= i <= |names|
      invariant result == Distinct(AllKeywords(names[..i]))
    {
      var ks := GenerateKeywords(names[i]);
      KeywordsOfIsGenerated(names[i], ks);
      assert names[..i + 1][..i] == names[..i];
      result := AddAll(result, ks, AllKeywords(names[..i]));
      i := i + 1;
    }
    assert names[..i] == names;
    return Some(result);
  }

  /** Every user keyword is a lower-cased prefix of one of the spellings, of length at
      least three, and each appears once. */
  lemma UserKeywordsAreNamePrefixes(user: KeywordUser, kw: string)
    requires kw in Distinct(AllKeywords(Spellings(user)))
    ensures NoDuplicates(Distinct(AllKeywords(Spellings(user))))
    ensures exists name :: name in Spellings(user) && 3 <= |kw| <= |name| && kw == ToLowerCase(name)[..|kw|]
  {
    var names := Spellings(user);
    DistinctIsSet(AllKeywords(names));
    AllKeywordsMember(names, kw);
  }

  lemma {:induction false} AllKeywordsMember(names: seq<string>, kw: string)
    requires kw in AllKeywords(names)
    ensures exists name :: name in names && 3 <= |kw| <= |name| && kw == ToLowerCase(name)[..|kw|]
  {
    var init := names[..|names| - 1];
    var last := names[|names| - 1];
    if kw in AllKeywords(init) {
      AllKeywordsMember(init, kw);
      var name :| name in init && 3 <= |kw| <= |name| && kw == ToLowerCase(name)[..|kw|];
      assert name in names;
    } else {
      var k :| 0 <= k < |KeywordsOf(last)| && KeywordsOf(last)[k] == kw;
      assert last in names;
    }
  }
}
