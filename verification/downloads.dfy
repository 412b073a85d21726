/** `download_video` (main.py:381-403) run once per job, one job after
    another, with what yt-dlp did given as an input; and where the lines of
    the manifest point. */
module Downloads {
  import opened Wrappers
  import opened Strings
  import opened OrderedDicts
  import opened Filenames
  import opened Manifest
  import opened FileSystem
  import opened SyncLoop

  /** What happened to one download: yt-dlp raised before a file path was
      known; it raised after the path was read but before the manifest line
      was stored (a missing `duration`, `title` or `uploader`); or it
      finished. Once the path is known yt-dlp has written the file there,
      unless `vanished` says it is gone when `shutil.move` runs (the
      `FileNotFoundError` of main.py:401-402). */
  datatype Outcome =
    | Failed
    | NoLine(filepath: Path, vanished: bool)
    | Downloaded(filepath: Path, info: DownloadInfo, vanished: bool)

  /** The state `download_video` changes: `m3u_data`, the files present and
      the text of every manifest written. */
  datatype Store = Store(m3u: M3uData, files: set<Path>, manifests: map<Path, string>)

  /** `{out_dir}/{sanitize_filename(playlist_name)} - {playlist_id}.m3u`
      (main.py:344, 401). */
  function ManifestPath(outDir: string, playlistName: string, playlistId: string): Path {
    Path(outDir, SanitizeFilename(playlistName) + " - " + playlistId + ".m3u")
  }

  function JobManifestPath(job: Job): Path {
    ManifestPath(job.outDir, job.playlistName, job.playlistId)
  }

  /** `save_m3u(path)` (main.py:61-63). */
  function SaveManifest(s: Store, path: Path): Store {
    s.(files := s.files + {path}, manifests := s.manifests[path := Content(s.m3u)])
  }

  /** The file a download wrote and left to be moved, when there is one. */
  function WrittenFile(o: Outcome): Option<Path> {
    match o
    case Failed => None
    case NoLine(filepath, vanished) => if vanished then None else Some(filepath)
    case Downloaded(filepath, _, vanished) => if vanished then None else Some(filepath)
  }

  /** One call of `download_video`: the line goes to the job's slot; the
      file yt-dlp wrote is moved into the playlist folder under its base
      name and the manifest is saved; a file that is gone (`shutil.move`
      raising `FileNotFoundError`) leaves the files and manifests as they
      were. */
  function AfterDownload(s: Store, job: Job, o: Outcome): Store {
    var m3u := if o.Downloaded? then Put(s.m3u, job.index, DownloadedLine(o.info, job.id, job.ext)) else s.m3u;
    var s1 := s.(m3u := m3u);
    match WrittenFile(o)
    case None => s1
    case Some(fp) =>
      var written := s.files + {fp};
      SaveManifest(s1.(files := written - {fp} + {Path(job.playlistDir, fp.name)}), JobManifestPath(job))
  }

  /** A download that left its file: the file is in the playlist folder
      under its base name and no longer where yt-dlp wrote it, and the
      manifest holds `m3u_data` with this download's line, whatever the
      files were before. */
  lemma DownloadMovesAndSaves(s: Store, job: Job, o: Outcome)
    requires WrittenFile(o).Some?
    ensures var r := AfterDownload(s, job, o);
      var fp := WrittenFile(o).value;
      && Path(job.playlistDir, fp.name) in r.files
      && (fp != Path(job.playlistDir, fp.name) && fp != JobManifestPath(job) ==> fp !in r.files)
      && JobManifestPath(job) in r.files
      && r.manifests == s.manifests[JobManifestPath(job) := Content(r.m3u)]
  {
  }

  /** A download without a file to move changes neither the files nor the
      manifests. */
  lemma DownloadWithoutFile(s: Store, job: Job, o: Outcome)
    requires WrittenFile(o).None?
    ensures AfterDownload(s, job, o).files == s.files
    ensures AfterDownload(s, job, o).manifests == s.manifests
  {
  }

  /** Only a finished download changes `m3u_data`. */
  lemma DownloadLine(s: Store, job: Job, o: Outcome)
    ensures AfterDownload(s, job, o).m3u ==
            if o.Downloaded? then Put(s.m3u, job.index, DownloadedLine(o.info, job.id, job.ext)) else s.m3u
  {
  }

  /** The jobs of one playlist, run in list order; `outcome` is keyed by video id. */
  function AfterDownloads(s: Store, jobs: seq<Job>, outcome: string -> Outcome): Store
    decreases |jobs|
  {
    if jobs == [] then s
    else
      var n := |jobs| - 1;
      AfterDownload(AfterDownloads(s, jobs[..n], outcome), jobs[n], outcome(jobs[n].id))
  }

  /** After all the jobs, the playlist folder holds the file of every
      download that left one, as long as no download writes into that
      folder itself (yt-dlp writes into `.synced_playlist_data`). */
  lemma {:induction false} DownloadedFilesMoved(s: Store, jobs: seq<Job>, outcome: string -> Outcome, j: int)
    requires 0 <= j < |jobs| && WrittenFile(outcome(jobs[j].id)).Some?
    requires forall k :: 0 <= k < |jobs| && WrittenFile(outcome(jobs[k].id)).Some? ==>
               WrittenFile(outcome(jobs[k].id)).value.dir != jobs[j].playlistDir
    ensures Path(jobs[j].playlistDir, WrittenFile(outcome(jobs[j].id)).value.name) in AfterDownloads(s, jobs, outcome).files
    decreases |jobs|
  {
    var n := |jobs| - 1;
    var pre := AfterDownloads(s, jobs[..n], outcome);
    if j < n {
      var init := jobs[..n];
      assert init[j] == jobs[j];
      forall k | 0 <= k < |init| && WrittenFile(outcome(init[k].id)).Some?
        ensures WrittenFile(outcome(init[k].id)).value.dir != init[j].playlistDir
      {
        assert init[k] == jobs[k];
      }
      DownloadedFilesMoved(s, init, outcome, j);
      var o := outcome(jobs[n].id);
      if WrittenFile(o).Some? {
        DownloadMovesAndSaves(pre, jobs[n], o);
      } else {
        DownloadWithoutFile(pre, jobs[n], o);
      }
    } else {
      DownloadMovesAndSaves(pre, jobs[n], outcome(jobs[n].id));
    }
  }

  /** A slot no finished download targets keeps its line. */
  lemma {:induction false} DownloadsKeepOtherSlots(s: Store, jobs: seq<Job>, outcome: string -> Outcome, k: int)
    requires forall j :: 0 <= j < |jobs| && outcome(jobs[j].id).Downloaded? ==> jobs[j].index != k
    ensures Get(AfterDownloads(s, jobs, outcome).m3u, k) == Get(s.m3u, k)
    decreases |jobs|
  {
    if jobs != [] {
      var n := |jobs| - 1;
      DownloadsKeepOtherSlots(s, jobs[..n], outcome, k);
      var o := outcome(jobs[n].id);
      var pre := AfterDownloads(s, jobs[..n], outcome);
      DownloadLine(pre, jobs[n], o);
      if o.Downloaded? {
        PutOther(pre.m3u, jobs[n].index, DownloadedLine(o.info, jobs[n].id, jobs[n].ext), k);
      }
    }
  }

  /** Job slots strictly increase along the list, as `Inv` guarantees. */
  predicate Increasing(jobs: seq<Job>) {
    forall a, b :: 0 <= a < b < |jobs| ==> jobs[a].index < jobs[b].index
  }

  /** With strictly increasing slots, every finished download's line is at
      its slot once all jobs have run. */
  lemma {:induction false} DownloadedSlots(s: Store, jobs: seq<Job>, outcome: string -> Outcome, j: int)
    requires Increasing(jobs)
    requires 0 <= j < |jobs| && outcome(jobs[j].id).Downloaded?
    ensures Get(AfterDownloads(s, jobs, outcome).m3u, jobs[j].index) ==
            Some(DownloadedLine(outcome(jobs[j].id).info, jobs[j].id, jobs[j].ext))
    decreases |jobs|
  {
    var n := |jobs| - 1;
    var o := outcome(jobs[n].id);
    var pre := AfterDownloads(s, jobs[..n], outcome);
    DownloadLine(pre, jobs[n], o);
    if j < n {
      var init := jobs[..n];
      assert Increasing(init) by {
        forall a, b | 0 <= a < b < |init| ensures init[a].index < init[b].index {
          assert init[a] == jobs[a] && init[b] == jobs[b];
        }
      }
      assert init[j] == jobs[j];
      DownloadedSlots(s, init, outcome, j);
      assert jobs[j].index < jobs[n].index;
      if o.Downloaded? {
        PutOther(pre.m3u, jobs[n].index, DownloadedLine(o.info, jobs[n].id, jobs[n].ext), jobs[j].index);
      }
    }
  }

  /** After the loop, the jobs run: a kept track's line is never replaced
      by a download, because no job shares its slot. */
  lemma KeptLinesSurvive(st: Loop, s: Store, outcome: string -> Outcome, p: int)
    requires Inv(st) && s.m3u == st.m3u
    requires 0 <= p < |st.plan| && st.plan[p].Kept?
    ensures Get(AfterDownloads(s, st.jobs, outcome).m3u, st.plan[p].index) == Get(st.m3u, st.plan[p].index)
    ensures Get(st.m3u, st.plan[p].index).Some?
  {
    DownloadsKeepOtherSlots(s, st.jobs, outcome, st.plan[p].index);
  }

  /** A new slot goes after every stored line, whatever its number: the file
      follows insertion order, not slot order. */
  lemma DownloadAppends(s: Store, job: Job, o: Outcome)
    requires o.Downloaded? && job.index !in Keys(s.m3u)
    ensures Values(AfterDownload(s, job, o).m3u) == Values(s.m3u) + [DownloadedLine(o.info, job.id, job.ext)]
  {
    var line := DownloadedLine(o.info, job.id, job.ext);
    PutNew(s.m3u, job.index, line);
    ValuesSnoc(s.m3u, job.index, line);
  }

  /** The text after the last line break. */
  function LastLine(s: string): (r: string)
    ensures '\n' !in r && EndsWith(s, r)
  {
    if s == [] then []
    else if s[|s| - 1] == '\n' then []
    else LastLine(s[..|s| - 1]) + [s[|s| - 1]]
  }

  lemma {:induction false} LastLineAfterBreak(a: string, b: string)
    requires '\n' !in b
    ensures LastLine(a + "\n" + b) == b
    decreases |b|
  {
    var head := a + "\n";
    if b == [] {
      assert head + b == head;
      assert head[|a|] == '\n';
    } else {
      var n := |b| - 1;
      var s := head + b;
      assert b[n] in b;
      PrefixOfAppend(head, b, n);
      assert s[..|s| - 1] == head + b[..n];
      assert s[|s| - 1] == b[n] != '\n';
      LastLineAfterBreak(a, b[..n]);
      assert LastLine(s) == b[..n] + [b[n]];
      SplitLast(b);
    }
  }

  /** The file a manifest entry names, for a manifest saved in `out_dir`. */
  function ResolvedPath(outDir: string, entry: string): string {
    if StartsWith(entry, "./") then outDir + "/" + entry[2..] else entry
  }

  /** An entry starting with `./` names a path under `out_dir`. */
  lemma ResolveRelative(outDir: string, rest: string)
    ensures ResolvedPath(outDir, "./" + rest) == outDir + "/" + rest
  {
    var e := "./" + rest;
    assert e[..2] == "./" && e[2..] == rest;
  }

  /** A kept track's entry names its file in the playlist folder
      (main.py:330). */
  lemma KeptEntryPath(c: Context, t: Tracks.Track, id: string)
    requires Standard(c)
    requires '\n' !in id && '\n' !in c.ext && '\n' !in c.playlistId
    ensures ResolvedPath(c.outDir, LastLine(KeptLine(t, c.playlistId, id, c.ext))) == Text(SyncedPath(c, id))
  {
    var rest := DataFolder + "/" + c.playlistId + "/" + id + "." + c.ext;
    var head := "#EXTINF:" + t.duration + "," + t.name + " - Por: " + t.uploader;
    assert '\n' !in "./" + rest;
    KeptLineParts(head, DataFolder, c.playlistId, id, c.ext);
    LastLineAfterBreak(head, "./" + rest);
    ResolveRelative(c.outDir, rest);
    SyncedPathParts(c.outDir, DataFolder, c.playlistId, id, c.ext);
  }

  /** The kept line as the line break and the entry. */
  lemma KeptLineParts(head: string, folder: string, pid: string, id: string, ext: string)
    ensures head + "\n" + "./" + folder + "/" + pid + "/" + id + "." + ext
         == head + "\n" + ("./" + (folder + "/" + pid + "/" + id + "." + ext))
  {
  }

  /** The synced path's text as `out_dir`, a slash and the rest. */
  lemma SyncedPathParts(outDir: string, folder: string, pid: string, id: string, ext: string)
    ensures outDir + "/" + folder + "/" + pid + "/" + (id + "." + ext)
         == outDir + "/" + (folder + "/" + pid + "/" + id + "." + ext)
  {
  }

  /** A downloaded track's entry names the staging path under
      `.synced_playlist_data`, not the playlist folder the file was moved
      into (main.py:392 against main.py:330 and 400). */
  lemma DownloadedEntryPath(c: Context, info: DownloadInfo, id: string)
    requires Standard(c)
    requires '\n' !in id && '\n' !in c.ext
    ensures ResolvedPath(c.outDir, LastLine(DownloadedLine(info, id, c.ext))) == Text(StagedPath(c, id))
    ensures Text(StagedPath(c, id)) != Text(SyncedPath(c, id))
  {
    var rest := DataFolder + "/" + id + "." + c.ext;
    var head := "#EXTINF:" + info.duration + "," + info.title + " - Por: " + info.uploader;
    assert '\n' !in "./" + rest;
    StagedLineParts(head, DataFolder, id, c.ext);
    LastLineAfterBreak(head, "./" + rest);
    ResolveRelative(c.outDir, rest);
    StagedPathParts(c.outDir, DataFolder, id, c.ext);
    assert |Text(SyncedPath(c, id))| == |Text(StagedPath(c, id))| + |c.playlistId| + 1;
  }

  lemma StagedLineParts(head: string, folder: string, id: string, ext: string)
    ensures head + "\n" + "./" + folder + "/" + id + "." + ext
         == head + "\n" + ("./" + (folder + "/" + id + "." + ext))
  {
  }

  lemma StagedPathParts(outDir: string, folder: string, id: string, ext: string)
    ensures outDir + "/" + folder + "/" + (id + "." + ext) == outDir + "/" + (folder + "/" + id + "." + ext)
  {
  }

  /** A reused track's entry names the file under `old_dir` (main.py:318). */
  lemma ReusedEntryPath(c: Context, message: string, tag: AudioTag, id: string)
    requires '\n' !in id && '\n' !in c.ext && '\n' !in c.oldDir
    ensures LastLine(ReusedLine(message, tag, c.oldDir, id, c.ext)) == Text(OldPath(c, id))
  {
    var head := "#EXTINF:" + IntToString(tag.lengthSeconds) + ",[" + message + "]: " + tag.title +
                " - Por: " + tag.artist;
    var entry := Text(OldPath(c, id));
    assert '\n' !in entry;
    LastLineAfterBreak(head, entry);
    assert ReusedLine(message, tag, c.oldDir, id, c.ext) == head + "\n" + entry;
  }
}
