/** The two regular expressions both core scripts compile:
    `(?<=list=)[a-zA-Z0-9_-]+` for playlist ids in links and
    `(?:^|(?<=\W))[-a-zA-Z0-9_]{11}(?:$|(?=\W))` for 11-character video ids. */
module YouTubeIds {
  import opened Wrappers
  import opened Strings
  import opened Ordering

  /** `[a-zA-Z0-9_-]`. */
  predicate IsIdChar(c: char) {
    ('a' <= c <= 'z') || ('A' <= c <= 'Z') || ('0' <= c <= '9') || c == '_' || c == '-'
  }

  /** `\w` (on ASCII text). */
  predicate IsWordChar(c: char) {
    ('a' <= c <= 'z') || ('A' <= c <= 'Z') || ('0' <= c <= '9') || c == '_'
  }

  predicate AllIdChars(s: string) {
    forall i :: 0 <= i < |s| ==> IsIdChar(s[i])
  }

  // ---------------------------------------------------------------------
  // Playlist ids: yt_playlist_regex.findall

  /** The lookbehind `(?<=list=)` holds at position `p`. */
  predicate AfterListEq(text: string, p: nat) {
    5 <= p <= |text| && text[p - 5..p] == "list="
  }

  /** The end of the run of id characters starting at `i` (greedy `+`). */
  function RunEnd(text: string, i: nat): (j: nat)
    requires i <= |text|
    ensures i <= j <= |text|
    ensures forall k :: i <= k < j ==> IsIdChar(text[k])
    ensures j == |text| || !IsIdChar(text[j])
    decreases |text| - i
  {
    if i < |text| && IsIdChar(text[i]) then RunEnd(text, i + 1) else i
  }

  /** `e` is matched by the playlist regex at position `p` of `text`. */
  predicate ListIdAt(text: string, p: nat, e: string) {
    AfterListEq(text, p) && |e| > 0 && p + |e| <= |text| && text[p..p + |e|] == e &&
    AllIdChars(e) && (p + |e| == |text| || !IsIdChar(text[p + |e|]))
  }

  /** `e` is matched by the playlist regex somewhere at or after `i`. */
  ghost predicate ListIdFrom(text: string, i: nat, e: string) {
    exists p: nat :: i <= p && ListIdAt(text, p, e)
  }

  /** A run of id characters right after `list=` is a match, and no
      `list=` ends inside it. */
  lemma RunIsMatch(text: string, i: nat)
    requires i < |text| && AfterListEq(text, i) && IsIdChar(text[i])
    ensures ListIdAt(text, i, text[i..RunEnd(text, i)])
    ensures forall p: nat :: i < p < RunEnd(text, i) ==> !AfterListEq(text, p)
  {
    var j := RunEnd(text, i);
    forall p: nat | i < p < j ensures !AfterListEq(text, p) {
      assert IsIdChar(text[p - 1]);
    }
  }

  /** A match at or after `j` is a match at or after any `i <= j`. */
  lemma MatchesFromEarlier(text: string, i: nat, j: nat, r: seq<string>)
    requires i <= j
    requires forall k :: 0 <= k < |r| ==> ListIdFrom(text, j, r[k])
    ensures forall k :: 0 <= k < |r| ==> ListIdFrom(text, i, r[k])
  {
    forall k | 0 <= k < |r| ensures ListIdFrom(text, i, r[k]) {
      var p: nat :| j <= p && ListIdAt(text, p, r[k]);
    }
  }

  /** `findall` from position `i` on: try every position; after a match go
      on at its end. Every element is a maximal non-empty id run right after
      `list=`, and every such run starting at or after `i` is found. */
  function FindAllFrom(text: string, i: nat): (r: seq<string>)
    requires i <= |text|
    ensures forall k :: 0 <= k < |r| ==> ListIdFrom(text, i, r[k])
    ensures forall p: nat :: i <= p < |text| && AfterListEq(text, p) && IsIdChar(text[p]) ==>
      text[p..RunEnd(text, p)] in r
    decreases |text| - i
  {
    if i == |text| then []
    else if AfterListEq(text, i) && IsIdChar(text[i]) then
      var j := RunEnd(text, i);
      var rest := FindAllFrom(text, j);
      RunIsMatch(text, i);
      MatchesFromEarlier(text, i, j, rest);
      [text[i..j]] + rest
    else
      var res := FindAllFrom(text, i + 1);
      MatchesFromEarlier(text, i, i + 1, res);
      res
  }

  function FindAllListIds(text: string): seq<string> {
    FindAllFrom(text, 0)
  }

  /** `sorted(list(set(yt_playlist_regex.findall(text))))` (main.py:116, 135). */
  function PlaylistIds(text: string): seq<string> {
    SortedSet(FindAllListIds(text))
  }

  /** The playlist ids read from a links file are strictly ascending (no
      duplicates). */
  lemma PlaylistIdsAscending(text: string)
    ensures StrictlyAscending(PlaylistIds(text))
  {
    SortedSetElements(FindAllListIds(text));
  }

  /** Each playlist id is a maximal non-empty run of `[A-Za-z0-9_-]` right
      after `list=` in the file. */
  lemma PlaylistIdsSound(text: string)
    ensures forall k :: 0 <= k < |PlaylistIds(text)| ==> ListIdFrom(text, 0, PlaylistIds(text)[k])
  {
    var all := FindAllListIds(text);
    SortedSetElements(all);
    var r := PlaylistIds(text);
    forall k | 0 <= k < |r| ensures ListIdFrom(text, 0, r[k]) {
      assert r[k] in all;
      var m :| 0 <= m < |all| && all[m] == r[k];
    }
  }

  /** Every run of id characters right after `list=` is among the ids. */
  lemma PlaylistIdsComplete(text: string)
    ensures forall p: nat :: p < |text| && AfterListEq(text, p) && IsIdChar(text[p]) ==>
      text[p..RunEnd(text, p)] in PlaylistIds(text)
  {
    SortedSetElements(FindAllListIds(text));
  }

  // ---------------------------------------------------------------------
  // Video ids: yt_video_regex.search

  const VideoIdLength := 11

  /** An 11-character id token starts at `i`: start of text or a non-word
      character before it, end of text or a non-word character after it. */
  predicate TokenAt(s: string, i: nat) {
    i + VideoIdLength <= |s| &&
    (i == 0 || !IsWordChar(s[i - 1])) &&
    AllIdChars(s[i..i + VideoIdLength]) &&
    (i + VideoIdLength == |s| || !IsWordChar(s[i + VideoIdLength]))
  }

  /** The leftmost token at or after `i`. */
  function TokenFrom(s: string, i: nat): (r: Option<nat>)
    requires i <= |s|
    ensures r.Some? ==> i <= r.value && TokenAt(s, r.value)
    ensures r.Some? ==> forall j :: i <= j < r.value ==> !TokenAt(s, j)
    ensures r.None? ==> forall j :: i <= j ==> !TokenAt(s, j)
    decreases |s| - i
  {
    if TokenAt(s, i) then Some(i)
    else if i == |s| then None
    else TokenFrom(s, i + 1)
  }

  /** `yt_video_regex.search(s).group()`, `None` when there is no match. */
  function SearchVideoId(s: string): (r: Option<string>)
    ensures r.Some? ==> |r.value| == VideoIdLength && AllIdChars(r.value)
  {
    match TokenFrom(s, 0)
    case None => None
    case Some(i) => Some(s[i..i + VideoIdLength])
  }

  /** The id of a file in a playlist folder: searched only in the text after
      the last `" - "` (main.py:274). */
  function LocalFileId(fileName: string): Option<string> {
    var pieces := Split(fileName, " - ");
    SearchVideoId(pieces[|pieces| - 1])
  }

  /** A file named `<id>.<ext>`, as the downloader names them, gives its id
      back. */
  lemma LocalFileIdOfDownload(id: string, ext: string)
    requires |id| == VideoIdLength && AllIdChars(id) && AllIdChars(ext)
    ensures LocalFileId(id + "." + ext) == Some(id)
  {
    var f := id + "." + ext;
    assert forall i :: 0 <= i < |f| ==> f[i] != ' ' by {
      forall i | 0 <= i < |f| ensures f[i] != ' ' {
        if i < |id| { assert f[i] == id[i]; }
        else if i > |id| { assert f[i] == ext[i - |id| - 1]; }
      }
    }
    forall i: nat ensures !OccursAt(f, " - ", i) {
      if i + 3 <= |f| { assert f[i..i + 3][0] == f[i]; }
    }
    assert FindFrom(f, " - ", 0).None?;
    assert Split(f, " - ") == [f];
    assert f[0..VideoIdLength] == id;
    assert TokenAt(f, 0);
  }

  /** A file whose name has no `" - "` is searched as a whole. */
  lemma LocalFileIdPlain(fileName: string)
    requires !Contains(fileName, " - ")
    ensures LocalFileId(fileName) == SearchVideoId(fileName)
  {
    assert FindFrom(fileName, " - ", 0).None?;
  }
}
