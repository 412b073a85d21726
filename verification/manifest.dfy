/** The `.m3u` playlist file: the lines `download_playlist` and
    `download_video` store in `m3u_data`, and `save_m3u`'s serialisation. */
module Manifest {
  import opened Wrappers
  import opened Strings
  import opened OrderedDicts
  import opened Tracks

  /** What mutagen reports for a reused file: `int(info.length)` and the
      first `title` and `artist` tags. */
  datatype AudioTag = AudioTag(lengthSeconds: int, title: string, artist: string)

  /** What yt-dlp reports for a finished download: the text of `duration`,
      `title` and `uploader`. */
  datatype DownloadInfo = DownloadInfo(duration: string, title: string, uploader: string)

  /** `m3u_data`: manifest lines keyed by playlist position. */
  type M3uData = Dict<int, string>

  const EntrySeparator := "\n\n"

  /** The hidden folder under `out_dir` that holds the playlist folders
      and the files of older versions. */
  const DataFolder := ".synced_playlist_data"

  /** The line for a track whose file is already in the playlist folder
      (main.py:329-330). */
  function KeptLine(t: Track, playlistId: string, id: string, ext: string): string {
    "#EXTINF:" + t.duration + "," + t.name + " - Por: " + t.uploader + "\n" +
    "./" + DataFolder + "/" + playlistId + "/" + id + "." + ext
  }

  /** The line for a deleted or private track whose old file is reused
      (main.py:316-318); it always names `old_dir`. */
  function ReusedLine(message: string, tag: AudioTag, oldDir: string, id: string, ext: string): string {
    "#EXTINF:" + IntToString(tag.lengthSeconds) + ",[" + message + "]: " + tag.title +
    " - Por: " + tag.artist + "\n" + oldDir + "/" + id + "." + ext
  }

  /** The line `download_video` stores (main.py:391-392). */
  function DownloadedLine(info: DownloadInfo, id: string, ext: string): string {
    "#EXTINF:" + info.duration + "," + info.title + " - Por: " + info.uploader + "\n" +
    "./" + DataFolder + "/" + id + "." + ext
  }

  /** What `save_m3u` writes: the values in insertion order, separated by a
      blank line. */
  function Content(m3u: M3uData): string {
    Join(Values(m3u), EntrySeparator)
  }

  /** A line that can be told apart from the separator around it. */
  predicate Separable(line: string) {
    !Contains(line, EntrySeparator) && !EndsWith(line, "\n")
  }

  /** An empty `m3u_data` gives an empty file; otherwise the file splits
      back, at its blank lines, into the stored lines in insertion order. */
  lemma ContentReadBack(m3u: M3uData)
    requires forall i :: 0 <= i < |m3u| ==> Separable(m3u[i].1)
    ensures m3u == [] ==> Content(m3u) == ""
    ensures m3u != [] ==> Split(Content(m3u), EntrySeparator) == Values(m3u)
  {
    if m3u != [] {
      SplitJoin(Values(m3u));
    }
  }

  /** The first blank line after a separable line is the separator. */
  lemma FirstSeparator(v: string, rest: string)
    requires Separable(v)
    ensures FindFrom(v + EntrySeparator + rest, EntrySeparator, 0) == Some(|v|)
  {
    var s := v + EntrySeparator + rest;
    forall j | 0 <= j < |v| ensures !OccursAt(s, EntrySeparator, j) {
      if j + 2 <= |v| {
        assert s[j..j + 2] == v[j..j + 2];
        assert !OccursAt(v, EntrySeparator, j);
      } else {
        assert s[j] == v[|v| - 1];
        assert v[|v| - 1..] == [v[|v| - 1]];
      }
    }
    assert OccursAt(s, EntrySeparator, |v|);
  }

  lemma {:induction false} SplitJoin(lines: seq<string>)
    requires |lines| >= 1 && forall i :: 0 <= i < |lines| ==> Separable(lines[i])
    ensures Split(Join(lines, EntrySeparator), EntrySeparator) == lines
  {
    var v := lines[0];
    if |lines| == 1 {
      assert FindFrom(v, EntrySeparator, 0).None?;
    } else {
      var rest := Join(lines[1..], EntrySeparator);
      var s := v + EntrySeparator + rest;
      assert Join(lines, EntrySeparator) == s;
      FirstSeparator(v, rest);
      assert s[..|v|] == v;
      assert s[|v| + 2..] == rest;
      assert Split(s, EntrySeparator) == [v] + Split(rest, EntrySeparator);
      SplitJoin(lines[1..]);
      assert lines == [v] + lines[1..];
    }
  }
}
