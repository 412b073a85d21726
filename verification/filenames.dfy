/** `sanitize_filename` (main.py): characters Windows refuses in file names
    become `-`, then trailing dots and spaces are stripped. */
module Filenames {
  import opened Strings

  /** The character class `[<>:"/\\|?*]`. */
  const Forbidden: set<char> := {'<', '>', ':', '"', '/', '\\', '|', '?', '*'}

  /** The argument of `rstrip('. ')`. */
  const Trailing: set<char> := {'.', ' '}

  /** `re.sub(r'[<>:"/\\|?*]', '-', s)`. */
  function ReplaceForbidden(s: string): (r: string)
    ensures |r| == |s|
    ensures forall i :: 0 <= i < |s| ==> r[i] == if s[i] in Forbidden then '-' else s[i]
  {
    if s == [] then []
    else [if s[0] in Forbidden then '-' else s[0]] + ReplaceForbidden(s[1..])
  }

  /** `s.rstrip(chars)`: the longest prefix of `s` that does not end in one
      of `chars`, such that only characters of `chars` were cut. */
  function RStrip(s: string, chars: set<char>): (r: string)
    ensures StartsWith(s, r)
    ensures forall i :: |r| <= i < |s| ==> s[i] in chars
    ensures r == [] || r[|r| - 1] !in chars
  {
    if s != [] && s[|s| - 1] in chars then RStrip(s[..|s| - 1], chars) else s
  }

  function SanitizeFilename(name: string): string {
    RStrip(ReplaceForbidden(name), Trailing)
  }

  /** The sanitised name holds no forbidden character and does not end in a
      dot or a space; it is the replaced name with only dots and spaces cut
      from its end, so every other character survives, in order. */
  lemma SanitizeFilenameSpec(name: string)
    ensures forall i :: 0 <= i < |SanitizeFilename(name)| ==> SanitizeFilename(name)[i] !in Forbidden
    ensures SanitizeFilename(name) == [] || SanitizeFilename(name)[|SanitizeFilename(name)| - 1] !in Trailing
    ensures |SanitizeFilename(name)| <= |name|
    ensures forall i :: 0 <= i < |SanitizeFilename(name)| ==>
      SanitizeFilename(name)[i] == if name[i] in Forbidden then '-' else name[i]
    ensures forall i :: |SanitizeFilename(name)| <= i < |name| ==> name[i] in Trailing
  {
    var m := ReplaceForbidden(name);
    var r := SanitizeFilename(name);
    assert r == m[..|r|];
    forall i | |r| <= i < |name| ensures name[i] in Trailing {
      assert m[i] in Trailing;
    }
  }

  /** Sanitising twice changes nothing, so re-sanitising the already
      sanitised playlist name for the `.m3u` path is harmless. */
  lemma SanitizeFilenameIdempotent(name: string)
    ensures SanitizeFilename(SanitizeFilename(name)) == SanitizeFilename(name)
  {
    var r := SanitizeFilename(name);
    SanitizeFilenameSpec(name);
    assert ReplaceForbidden(r) == r;
  }
}
