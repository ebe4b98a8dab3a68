/** Link wrapping in message text (src/utils/links.ts): every match of the global,
    case-insensitive pattern
    `\b(https?|ftp|file)://[-A-Z0-9+&@#/%?=~_|!:,.;]*[-A-Z0-9+&@#/%=~_|]`
    is replaced by an anchor, scanning left to right without overlaps. */
module Links {
  import opened Wrappers
  import opened Js

  /** `[-A-Z0-9+&@#/%?=~_|!:,.;]` under the `i` flag. */
  predicate IsBodyChar(c: char) {
    IsEndChar(c) || c == '?' || c == '!' || c == ':' || c == ',' || c == '.' || c == ';'
  }

  /** `[-A-Z0-9+&@#/%=~_|]` under the `i` flag: the characters a link may end with. */
  predicate IsEndChar(c: char) {
    IsAsciiLetter(c) || IsDigit(c) || c == '-' || c == '+' || c == '&' || c == '@' || c == '#'
    || c == '/' || c == '%' || c == '=' || c == '~' || c == '_' || c == '|'
  }

  /** `t` spells the lower-case ASCII word `w` at position `p`, ignoring case. */
  predicate HasAt(t: string, p: nat, w: string) {
    p + |w| <= |t| && forall k :: 0 <= k < |w| ==> LowerChar(t[p + k]) == w[k]
  }

  /** `\b` before a letter at position `p`. */
  predicate WordStart(t: string, p: nat)
    requires p < |t|
  {
    p == 0 || !IsWordChar(t[p - 1])
  }

  /** Where the text after `(https?|ftp|file)://` begins, if the scheme is at `p`. */
  function SchemeEnd(t: string, p: nat): (q: Option<nat>)
    ensures q.Some? ==> p + 6 <= q.value <= |t| && HasAt(t, q.value - 3, "://")
    ensures q.Some? <==> (HasAt(t, p, "https://") || HasAt(t, p, "http://")
                          || HasAt(t, p, "ftp://") || HasAt(t, p, "file://"))
  {
    if HasAt(t, p, "https://") then
      SchemeTail(t, p, "https://"); Some(p + 8)
    else if HasAt(t, p, "http://") then
      SchemeTail(t, p, "http://"); Some(p + 7)
    else if HasAt(t, p, "ftp://") then
      SchemeTail(t, p, "ftp://"); Some(p + 6)
    else if HasAt(t, p, "file://") then
      SchemeTail(t, p, "file://"); Some(p + 7)
    else None
  }

  lemma SchemeTail(t: string, p: nat, w: string)
    requires HasAt(t, p, w) && |w| >= 3
    requires w[|w| - 3] == ':' && w[|w| - 2] == '/' && w[|w| - 1] == '/'
    ensures HasAt(t, p + |w| - 3, "://")
  {
    forall k | 0 <= k < 3 ensures LowerChar(t[p + |w| - 3 + k]) == "://"[k] {
      assert LowerChar(t[p + (|w| - 3 + k)]) == w[|w| - 3 + k];
    }
  }

  /** The end of the run of body characters that starts at `q`. */
  function BodyRunEnd(t: string, q: nat): (e: nat)
    requires q <= |t|
    ensures q <= e <= |t|
    ensures forall k :: q <= k < e ==> IsBodyChar(t[k])
    ensures e < |t| ==> !IsBodyChar(t[e])
    decreases |t| - q
  {
    if q == |t| || !IsBodyChar(t[q]) then q else BodyRunEnd(t, q + 1)
  }

  /** One past the last end character in `t[q..e]`, or `q` when there is none: where
      the greedy body backs off to. */
  function BackOff(t: string, q: nat, e: nat): (m: nat)
    requires q <= e <= |t|
    ensures q <= m <= e
    ensures m > q ==> IsEndChar(t[m - 1])
    ensures forall k :: m <= k < e ==> !IsEndChar(t[k])
    decreases e
  {
    if e == q then q else if IsEndChar(t[e - 1]) then e else BackOff(t, q, e - 1)
  }

  /** The end of the match that starts at `p`, if one does. */
  function MatchAt(t: string, p: nat): (m: Option<nat>)
    requires p < |t|
    ensures m.Some? ==> p < m.value <= |t|
  {
    if !WordStart(t, p) then None
    else match SchemeEnd(t, p)
      case None => None
      case Some(q) =>
        var e := BodyRunEnd(t, q);
        var m := BackOff(t, q, e);
        if m == q then None else Some(m)
  }

  /** A match starts at a word boundary with a scheme, runs over body characters, ends
      on an end character and is the longest such run; there is none exactly when one
      of these fails. */
  lemma MatchAtShape(t: string, p: nat)
    requires p < |t|
    ensures MatchAt(t, p).Some? ==>
      && WordStart(t, p)
      && SchemeEnd(t, p).Some?
      && var q := SchemeEnd(t, p).value;
         && q < MatchAt(t, p).value
         && (forall k :: q <= k < MatchAt(t, p).value ==> IsBodyChar(t[k]))
         && IsEndChar(t[MatchAt(t, p).value - 1])
         && (forall k :: MatchAt(t, p).value <= k < BodyRunEnd(t, q) ==> !IsEndChar(t[k]))
    ensures MatchAt(t, p).None? ==>
      (!WordStart(t, p) || SchemeEnd(t, p).None?
       || (forall k :: SchemeEnd(t, p).value <= k < BodyRunEnd(t, SchemeEnd(t, p).value) ==> !IsEndChar(t[k])))
  {
  }

  /** The replacement text for one link. */
  function Anchor(url: string): string {
    "<a href=\"" + url + "\" target=\"_blank\">" + url + "</a>"
  }

  /** The replacement applied from position `p` on. */
  function ReformatFrom(t: string, p: nat): string
    requires p <= |t|
    decreases |t| - p
  {
    if p == |t| then ""
    else match MatchAt(t, p)
      case Some(e) => Anchor(t[p..e]) + ReformatFrom(t, e)
      case None => [t[p]] + ReformatFrom(t, p + 1)
  }

  /** `reformatLinks(text)` */
  function ReformatLinks(text: string): string {
    ReformatFrom(text, 0)
  }

  /** Text in which no position starts a match is returned unchanged. */
  lemma {:induction false} NoMatchUnchanged(t: string, p: nat)
    requires p <= |t|
    requires forall k :: p <= k < |t| ==> MatchAt(t, k).None?
    ensures ReformatFrom(t, p) == t[p..]
    decreases |t| - p
  {
    if p < |t| {
      NoMatchUnchanged(t, p + 1);
      assert t[p..] == [t[p]] + t[p + 1..];
    }
  }

  lemma UnmatchedStep(t: string, p: nat)
    requires p < |t| && MatchAt(t, p).None?
    ensures ReformatFrom(t, p) == [t[p]] + ReformatFrom(t, p + 1)
  {
  }

  /** Up to the first match the text is copied verbatim; the match is wrapped; the scan
      resumes after it. */
  lemma {:induction false} FirstMatch(t: string, p: nat, start: nat, end: nat)
    requires p <= start < |t|
    requires forall k :: p <= k < start ==> MatchAt(t, k).None?
    requires MatchAt(t, start) == Some(end)
    ensures ReformatFrom(t, p) == t[p..start] + Anchor(t[start..end]) + ReformatFrom(t, end)
    decreases start - p
  {
    if p < start {
      UnmatchedStep(t, p);
      FirstMatch(t, p + 1, start, end);
      Regroup(t, p, start, Anchor(t[start..end]), ReformatFrom(t, end));
    } else {
      MatchedStep(t, start, end);
    }
  }

  lemma MatchedStep(t: string, p: nat, e: nat)
    requires p < |t| && MatchAt(t, p) == Some(e)
    ensures ReformatFrom(t, p) == t[p..p] + Anchor(t[p..e]) + ReformatFrom(t, e)
  {
    assert t[p..p] == "";
  }

  lemma Regroup(t: string, p: nat, start: nat, b: string, c: string)
    requires p < start <= |t|
    ensures [t[p]] + (t[p + 1..start] + b + c) == t[p..start] + b + c
  {
    assert t[p..start] == [t[p]] + t[p + 1..start];
  }

  /** A link written at the start of the text, ending at the text's end, is wrapped
      whole; a trailing full stop after it stays outside the anchor. */
  lemma TrailingPunctuationExcluded(url: string)
    requires |url| > 8 && url[..8] == "https://"
    requires forall k :: 8 <= k < |url| ==> IsEndChar(url[k])
    ensures ReformatLinks(url + ".") == Anchor(url) + "."
  {
    var t := url + ".";
    assert HasAt(t, 0, "https://") by {
      forall k | 0 <= k < 8 ensures LowerChar(t[k]) == "https://"[k] {
        assert t[k] == url[..8][k];
      }
    }
    assert SchemeEnd(t, 0) == Some(8);
    assert BodyRunEnd(t, |t|) == |t|;
    BodyRunFrom(t, 8, |t|);
    assert BackOff(t, 8, |t|) == |url|;
    assert MatchAt(t, 0) == Some(|url|);
    FirstMatch(t, 0, 0, |url|);
    assert t[0..|url|] == url && t[0..0] == "";
    assert MatchAt(t, |url|).None?;
    assert ReformatFrom(t, |t|) == "";
    assert ReformatFrom(t, |url|) == "." + ReformatFrom(t, |t|);
  }

  lemma {:induction false} BodyRunFrom(t: string, q: nat, e: nat)
    requires q <= e <= |t|
    requires forall k :: q <= k < e ==> IsBodyChar(t[k])
    requires BodyRunEnd(t, e) == e
    ensures BodyRunEnd(t, q) == e
    decreases e - q
  {
    if q < e { BodyRunFrom(t, q + 1, e); }
  }
}
