/** File-extension extraction for file names and storage URLs (src/utils/files.ts). */
module Files {
  import opened Js

  /** `fileNameOrUrl.split("?")[0]`: everything before the first '?'. */
  function StripQuery(fileNameOrUrl: string): (clean: string)
    ensures '?' !in clean
    ensures clean <= fileNameOrUrl
    ensures |clean| < |fileNameOrUrl| ==> fileNameOrUrl[|clean|] == '?'
  {
    fileNameOrUrl[..IndexOf(fileNameOrUrl, '?')]
  }

  /** The text after the last '.' of the query-stripped name, case preserved; "" when
      there is no '.' or the '.' is the last character. */
  function GetFileExtension(fileNameOrUrl: string): (ext: string)
    ensures '.' !in ext && '?' !in ext
    ensures var clean := StripQuery(fileNameOrUrl);
      && |ext| <= |clean|
      && ext == clean[|clean| - |ext|..]
      && (ext != "" ==> |ext| < |clean| && clean[|clean| - |ext| - 1] == '.')
      && (ext == "" <==> '.' !in clean || clean[|clean| - 1] == '.')
  {
    var clean := StripQuery(fileNameOrUrl);
    var lastDot := LastIndexOf(clean, '.');
    if lastDot != -1 && lastDot < |clean| - 1 then
      var ext := clean[lastDot + 1..];
      assert forall c :: c in ext ==> c in clean[lastDot + 1..];
      ext
    else
      assert lastDot == -1 ==> forall i :: 0 <= i < |clean| ==> clean[i] != '.';
      ""
  }

  lemma StripQueryAt(s: string, k: nat)
    requires k <= |s| && '?' !in s[..k] && (k < |s| ==> s[k] == '?')
    ensures StripQuery(s) == s[..k]
  {
  }

  lemma ExtensionAfter(s: string, k: nat)
    requires '?' !in s && k + 1 < |s| && s[k] == '.' && '.' !in s[k + 1..]
    ensures GetFileExtension(s) == s[k + 1..]
  {
    StripQueryAt(s, |s|);
    assert s[..|s|] == s;
  }

  /** A name `stem.ext`, optionally followed by a query string, has extension `ext`. */
  lemma ExtensionOf(stem: string, ext: string, query: string)
    requires '?' !in stem && '?' !in ext && '.' !in ext && ext != ""
    ensures GetFileExtension(stem + "." + ext) == ext
    ensures GetFileExtension(stem + "." + ext + "?" + query) == ext
  {
    var clean := stem + "." + ext;
    var s := clean + "?" + query;
    assert s[..|clean|] == clean;
    StripQueryAt(s, |clean|);
    StripQueryAt(clean, |clean|);
    assert clean[..|clean|] == clean;
    assert clean[|stem| + 1..] == ext;
    ExtensionAfter(clean, |stem|);
  }

  /** The plain-file-name example given with the function. */
  lemma FileNameExample()
    ensures GetFileExtension("example.txt") == "txt"
  {
    var name := "example.txt";
    assert name[8..] == "txt";
    ExtensionAfter(name, 7);
  }
}
