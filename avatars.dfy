/** Avatar helpers (src/utils/avatars.ts): the 32-bit string hash behind avatar colours,
    its split into RGB channels, display names and initials. */
module Avatars {
  import opened Wrappers
  import opened Js

  /** The hash as a fold over UTF-16 code units: start at 0, and for each unit take the
      signed 32-bit wrap of 31 * h + unit. */
  function Hash(units: seq<nat>): (h: int)
    ensures IsInt32(h)
    ensures units == [] ==> h == 0
  {
    if units == [] then 0 else ToInt32(31 * Hash(units[..|units| - 1]) + units[|units| - 1])
  }

  /** ToInt32 only depends on its argument modulo 2^32. */
  lemma ToInt32Congruent(x: int, y: int)
    requires (x - y) % TWO_32 == 0
    ensures ToInt32(x) == ToInt32(y)
  {
    assert x % TWO_32 == y % TWO_32 by {
      var q := (x - y) / TWO_32;
      assert x == y + q * TWO_32;
    }
  }

  /** One step of the source's loop: `(h << 5) - h + code`, then `|= 0`. The shift
      converts `h` to 32 bits and wraps `h * 32`; subtraction and addition are exact;
      `| 0` wraps again. */
  function HashStep(h: int, code: nat): (r: int)
    requires IsInt32(h)
    ensures r == ToInt32(31 * h + code)
  {
    var shifted := ToInt32(ToInt32(h) * 32);
    var r := ToInt32(shifted - h + code);
    ToInt32Congruent(shifted - h + code, 31 * h + code);
    r
  }

  /** `hashString(str)`: the loop runs over the `str.length` code units, reading each
      with `charCodeAt`. */
  method HashString(str: string) returns (hash: int)
    ensures hash == Hash(Utf16(str))
    ensures IsInt32(hash)
  {
    var units := Utf16(str);
    hash := 0;
    var i := 0;
    while i < |units|
      invariant 0 <= i <= |units|
      invariant hash == Hash(units[..i])
    {
      assert units[..i + 1][..i] == units[..i];
      hash := HashStep(hash, units[i]);
      i := i + 1;
    }
    assert units[..i] == units;
  }

  /** A character above U+FFFF is hashed as its two surrogates: "\U{1F600}" hashes to
      31 * 0xD83D + 0xDE00, not to its code point 0x1F600. */
  lemma AstralCharHashesSurrogates()
    ensures Hash(Utf16("\U{1F600}")) == 31 * 0xD83D + 0xDE00 == 1772899
  {
    assert Utf16("\U{1F600}") == [0xD83D, 0xDE00];
    assert Hash([0xD83D]) == 0xD83D;
    assert [0xD83D, 0xDE00][..1] == [0xD83D];
  }

  /** The hash as a polynomial in 31 over the code units, before any wrapping. */
  function Polynomial(units: seq<nat>): int {
    if units == [] then 0 else 31 * Polynomial(units[..|units| - 1]) + units[|units| - 1]
  }

  /** Wrapping at every step gives the same result as wrapping the exact polynomial
      once: the hash is the polynomial modulo 2^32, read as a signed 32-bit integer. */
  lemma {:induction false} HashIsWrappedPolynomial(s: seq<nat>)
    ensures Hash(s) == ToInt32(Polynomial(s))
  {
    if s != [] {
      var init := s[..|s| - 1];
      var c := s[|s| - 1];
      HashIsWrappedPolynomial(init);
      WrapStep(Polynomial(init), c);
    }
  }

  /** One more step of the polynomial commutes with the wrap. */
  lemma WrapStep(p: int, c: nat)
    ensures ToInt32(31 * ToInt32(p) + c) == ToInt32(31 * p + c)
  {
    var h := ToInt32(p);
    var q := (h - p) / TWO_32;
    assert h - p == q * TWO_32;
    assert (31 * h + c) - (31 * p + c) == (31 * q) * TWO_32;
    ToInt32Congruent(31 * h + c, 31 * p + c);
  }

  /** The red, green and blue channels of an avatar colour. */
  datatype Rgb = Rgb(r: nat, g: nat, b: nat)

  /** `(hash & 0xFF0000) >> 16`, `(hash & 0x00FF00) >> 8` and `hash & 0x0000FF`: bits
      16-23, 8-15 and 0-7 of the two's-complement form of the 32-bit hash, that is of
      the hash taken modulo 2^32. */
  function HashToChannels(hash: int): (c: Rgb)
    ensures c.r < 256 && c.g < 256 && c.b < 256
    ensures var bits := ToInt32(hash) % TWO_32;
      bits % 0x100_0000 == c.r * 0x1_0000 + c.g * 0x100 + c.b
  {
    var bits := ToInt32(hash) % TWO_32;
    LowBytes(bits);
    Rgb(bits / 0x1_0000 % 0x100, bits / 0x100 % 0x100, bits % 0x100)
  }

  /** The low three bytes of a number make up its value modulo 2^24. */
  lemma LowBytes(x: nat)
    ensures x % 0x100_0000
      == (x / 0x1_0000 % 0x100) * 0x1_0000 + (x / 0x100 % 0x100) * 0x100 + x % 0x100
  {
    var a, y := x % 0x100, x / 0x100;
    var b, z := y % 0x100, y / 0x100;
    var c, w := z % 0x100, z / 0x100;
    assert x == 0x1_0000 * z + (0x100 * b + a);
    assert x / 0x1_0000 == z;
    assert x == 0x100_0000 * w + (0x1_0000 * c + 0x100 * b + a);
  }

  /** The CSS text `rgb(r, g, b)` of a colour. */
  function RgbText(c: Rgb): (text: string)
    ensures |text| >= 12 && text[..4] == "rgb(" && text[|text| - 1] == ')'
  {
    "rgb(" + NatToString(c.r) + ", " + NatToString(c.g) + ", " + NatToString(c.b) + ")"
  }

  /** The number of digits a string starts with. */
  function LeadingDigits(w: string): (n: nat)
    ensures n <= |w|
  {
    if w == [] || !IsDigit(w[0]) then 0 else 1 + LeadingDigits(w[1..])
  }

  /** Digits followed by a text that does not start with a digit: the digits are all
      the leading digits. */
  lemma {:induction false} LeadingDigitsOf(x: string, u: string)
    requires forall i :: 0 <= i < |x| ==> IsDigit(x[i])
    requires u != [] ==> !IsDigit(u[0])
    ensures LeadingDigits(x + u) == |x|
  {
    if x == [] {
      assert x + u == u;
    } else {
      assert (x + u)[1..] == x[1..] + u;
      LeadingDigitsOf(x[1..], u);
    }
  }

  /** A digit string followed by a text that does not start with a digit splits only
      one way. */
  lemma DigitsSplit(x: string, y: string, u: string, v: string)
    requires AllDigits(x) && AllDigits(y) && x + u == y + v
    requires u != [] ==> !IsDigit(u[0])
    requires v != [] ==> !IsDigit(v[0])
    ensures x == y && u == v
  {
    LeadingDigitsOf(x, u);
    LeadingDigitsOf(y, v);
    assert x == (x + u)[..|x|] && y == (y + v)[..|y|];
    assert u == (x + u)[|x|..] && v == (y + v)[|y|..];
  }

  /** The text after "rgb(": the red digits and the rest. */
  lemma RgbTextAfterPrefix(c: Rgb)
    ensures RgbText(c)[4..] == NatToString(c.r) + (", " + NatToString(c.g) + (", " + NatToString(c.b) + ")"))
  {
    var text := RgbText(c);
    assert text == "rgb(" + (NatToString(c.r) + (", " + NatToString(c.g) + (", " + NatToString(c.b) + ")")));
  }

  /** A digit string, then ", " and a tail: reading past the digits and the separator. */
  lemma SkipSeparator(digits: string, tail: string)
    ensures (", " + digits + tail)[2..] == digits + tail
  {
  }

  /** Distinct colours have distinct texts: the text can be read back. */
  lemma RgbTextInjective(c1: Rgb, c2: Rgb)
    requires RgbText(c1) == RgbText(c2)
    ensures c1 == c2
  {
    var r1, g1, b1 := NatToString(c1.r), NatToString(c1.g), NatToString(c1.b);
    var r2, g2, b2 := NatToString(c2.r), NatToString(c2.g), NatToString(c2.b);
    var tail1, tail2 := ", " + b1 + ")", ", " + b2 + ")";
    var rest1, rest2 := ", " + g1 + tail1, ", " + g2 + tail2;
    RgbTextAfterPrefix(c1);
    RgbTextAfterPrefix(c2);
    assert ", " + g1 + tail1 == ", " + (g1 + tail1);
    assert ", " + g2 + tail2 == ", " + (g2 + tail2);
    DigitsSplit(r1, r2, rest1, rest2);
    SkipSeparator(g1, tail1);
    SkipSeparator(g2, tail2);
    DigitsSplit(g1, g2, tail1, tail2);
    SkipSeparator(b1, ")");
    SkipSeparator(b2, ")");
    DigitsSplit(b1, b2, ")", ")");
    DigitsOfNat(c1.r);
    DigitsOfNat(c2.r);
    DigitsOfNat(c1.g);
    DigitsOfNat(c2.g);
    DigitsOfNat(c1.b);
    DigitsOfNat(c2.b);
  }

  /** `hashToColor(hash)`: the CSS colour `rgb(r, g, b)` of the hash's channels. */
  function HashToColor(hash: int): (color: string)
    ensures |color| >= 12 && color[..4] == "rgb(" && color[|color| - 1] == ')'
  {
    RgbText(HashToChannels(hash))
  }

  /** Reducing modulo 2^32 keeps the low 24 bits. */
  lemma LowBitsOfWrap(x: int)
    ensures x % TWO_32 % 0x100_0000 == x % 0x100_0000
  {
    var q := x / TWO_32;
    assert x == q * TWO_32 + x % TWO_32;
    assert q * TWO_32 == (q * 0x100) * 0x100_0000;
  }

  /** Channels below 256 are the three bytes of their sum. */
  lemma ChannelsOfSum(c: Rgb)
    requires c.r < 256 && c.g < 256 && c.b < 256
    ensures var x := c.r * 0x1_0000 + c.g * 0x100 + c.b;
      x / 0x1_0000 == c.r && x / 0x100 % 0x100 == c.g && x % 0x100 == c.b
  {
  }

  /** Two hashes give the same colour exactly when their low 24 bits agree: the colour
      keeps bits 0-23 of the 32-bit hash and nothing else. */
  lemma SameColorIffLowBits(h1: int, h2: int)
    ensures HashToColor(h1) == HashToColor(h2) <==> ToInt32(h1) % 0x100_0000 == ToInt32(h2) % 0x100_0000
  {
    var c1, c2 := HashToChannels(h1), HashToChannels(h2);
    LowBitsOfWrap(ToInt32(h1));
    LowBitsOfWrap(ToInt32(h2));
    if HashToColor(h1) == HashToColor(h2) {
      RgbTextInjective(c1, c2);
    }
    if ToInt32(h1) % 0x100_0000 == ToInt32(h2) % 0x100_0000 {
      ChannelsOfSum(c1);
      ChannelsOfSum(c2);
    }
  }

  /** `{ firstName, lastName? }` */
  datatype NameParams = NameParams(firstName: string, lastName: Option<string>)

  /** `generateDisplayName(params)`: "" without params, "first last" when lastName is
      truthy, just the first name otherwise. */
  function GenerateDisplayName(params: Option<NameParams>): (name: string)
    ensures params.None? ==> name == ""
    ensures params.Some? && TruthyStr(params.value.lastName) ==>
      name == params.value.firstName + " " + params.value.lastName.value
    ensures params.Some? && !TruthyStr(params.value.lastName) ==> name == params.value.firstName
  {
    match params
    case None => ""
    case Some(p) => if TruthyStr(p.lastName) then p.firstName + " " + p.lastName.value else p.firstName
  }

  /** Index of the first whitespace character of `s`, |s| when there is none. */
  function FirstWhitespace(s: string): (i: nat)
    ensures i <= |s|
    ensures i < |s| ==> IsWhitespace(s[i])
    ensures forall k :: 0 <= k < i ==> !IsWhitespace(s[k])
  {
    if s == [] || IsWhitespace(s[0]) then 0 else 1 + FirstWhitespace(s[1..])
  }

  /** `s.split(/\s+/)`: the pieces between maximal runs of whitespace; a leading run
      gives a first empty piece and a trailing run a last empty piece. */
  function SplitWhitespace(s: string): (words: seq<string>)
    ensures |words| >= 1
    ensures words[0] == s[..FirstWhitespace(s)]
    decreases |s|
  {
    var i := FirstWhitespace(s);
    if i == |s| then
      assert s[..i] == s;
      [s]
    else
      var rest := TrimStart(s[i..]);
      [s[..i]] + SplitWhitespace(rest)
  }

  /** `generateInitials(fullName)`: the upper-cased first characters of the first two
      words of the trimmed name, or of its only word. `None` where the source throws,
      when a word it reads is empty (a blank name). */
  function GenerateInitials(fullName: string): (initials: Option<string>)
    ensures initials.None? <==> Trim(fullName) == ""
    ensures initials.Some? ==>
      && 1 <= |initials.value| <= 2
      && initials.value[0] == UpperChar(Trim(fullName)[0])
  {
    var t := Trim(fullName);
    var names := SplitWhitespace(t);
    if names[0] == "" then
      None
    else if |names| > 1 then
      if names[1] == "" then
        SecondWordNonEmpty(t);
        None
      else
        Some([UpperChar(names[0][0]), UpperChar(names[1][0])])
    else
      Some([UpperChar(names[0][0])])
  }

  /** Splitting text without whitespace at either end gives no empty second word. */
  lemma SecondWordNonEmpty(t: string)
    requires t == [] || (!IsWhitespace(t[0]) && !IsWhitespace(t[|t| - 1]))
    requires |SplitWhitespace(t)| > 1
    ensures SplitWhitespace(t)[1] != ""
  {
    var i := FirstWhitespace(t);
    var rest := TrimStart(t[i..]);
    assert t[i..][|t[i..]| - 1] == t[|t| - 1];
    assert SplitWhitespace(t)[1] == SplitWhitespace(rest)[0];
    assert !IsWhitespace(rest[0]);
  }

  /** A non-empty piece of text without whitespace. */
  predicate IsWord(w: string) {
    w != [] && forall k :: 0 <= k < |w| ==> !IsWhitespace(w[k])
  }

  lemma SplitOfWord(w: string)
    requires IsWord(w)
    ensures Trim(w) == w
    ensures SplitWhitespace(w) == [w]
  {
    TrimOfWords(w);
    FirstWhitespaceAt(w, |w|);
    assert w[..|w|] == w;
  }

  lemma SplitOfTwoWords(a: string, b: string)
    requires IsWord(a) && IsWord(b)
    ensures Trim(a + " " + b) == a + " " + b
    ensures SplitWhitespace(a + " " + b) == [a, b]
  {
    var s := a + " " + b;
    assert s[0] == a[0] && s[|s| - 1] == b[|b| - 1];
    TrimOfWords(s);
    assert s[..|a|] == a && s[|a| + 1..] == b;
    SplitAtSpace(s, |a|);
  }

  lemma SplitAtSpace(s: string, i: nat)
    requires i < |s| && s[i] == ' ' && IsWord(s[..i]) && IsWord(s[i + 1..])
    ensures SplitWhitespace(s) == [s[..i], s[i + 1..]]
  {
    assert forall k :: 0 <= k < i ==> s[k] == s[..i][k];
    FirstWhitespaceAt(s, i);
    var tail := s[i..];
    assert tail[1..] == s[i + 1..];
    TrimStartOnce(tail);
    var second := s[i + 1..];
    assert TrimStart(tail) == second;
    SplitOfWord(second);
    SplitInTwo(s, i, second);
  }

  lemma SplitInTwo(s: string, i: nat, second: string)
    requires FirstWhitespace(s) == i < |s|
    requires TrimStart(s[i..]) == second && SplitWhitespace(second) == [second]
    ensures SplitWhitespace(s) == [s[..i], second]
  {
    SplitAtFirstWhitespace(s);
  }

  lemma SplitAtFirstWhitespace(s: string)
    requires FirstWhitespace(s) < |s|
    ensures var i := FirstWhitespace(s);
      SplitWhitespace(s) == [s[..i]] + SplitWhitespace(TrimStart(s[i..]))
  {
  }

  /** The initials of the display name "first last" are the initials of the two names;
      of a bare first name, its initial. */
  lemma InitialsOfDisplayName(first: string, last: Option<string>)
    requires IsWord(first)
    requires last.Some? ==> last.value == "" || IsWord(last.value)
    ensures var name := GenerateDisplayName(Some(NameParams(first, last)));
      GenerateInitials(name)
      == if TruthyStr(last) then Some([UpperChar(first[0]), UpperChar(last.value[0])])
         else Some([UpperChar(first[0])])
  {
    if TruthyStr(last) {
      SplitOfTwoWords(first, last.value);
    } else {
      SplitOfWord(first);
    }
  }

  lemma FirstWhitespaceAt(s: string, i: nat)
    requires i <= |s|
    requires forall k :: 0 <= k < i ==> !IsWhitespace(s[k])
    requires i < |s| ==> IsWhitespace(s[i])
    ensures FirstWhitespace(s) == i
  {
  }

  /** Trimming a string that starts and ends with non-whitespace changes nothing. */
  lemma TrimOfWords(s: string)
    requires s != [] && !IsWhitespace(s[0]) && !IsWhitespace(s[|s| - 1])
    ensures Trim(s) == s
  {
  }

  lemma TrimStartOnce(s: string)
    requires |s| >= 2 && IsWhitespace(s[0]) && !IsWhitespace(s[1])
    ensures TrimStart(s) == s[1..]
  {
  }
}
