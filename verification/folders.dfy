/** The three directory sweeps of `download_playlist`: stale `.m3u` files in
    `out_dir` (main.py:249-252), files of the playlist folder without a
    video id (main.py:266-282) and files no playlist asks for any more
    (main.py:360-369). */
module Folders {
  import opened Strings
  import opened Filenames
  import opened YouTubeIds
  import opened FileSystem
  import opened SyncLoop
  import opened Downloads
  import opened Manifest

  // ---------------------------------------------------------------------
  // Stale manifests

  /** A `.m3u` file of `out_dir` whose name contains the playlist id. */
  predicate IsStaleManifest(p: Path, outDir: string, playlistId: string) {
    p.dir == outDir && EndsWith(p.name, ".m3u") && Contains(p.name, playlistId)
  }

  function StaleManifests(files: set<Path>, outDir: string, playlistId: string): set<Path> {
    set p | p in files && IsStaleManifest(p, outDir, playlistId)
  }

  /** The manifest a previous run wrote for this playlist is among the stale
      ones, so it is rewritten from scratch. */
  lemma OwnManifestIsStale(outDir: string, playlistName: string, playlistId: string)
    ensures IsStaleManifest(ManifestPath(outDir, playlistName, playlistId), outDir, playlistId)
  {
    var clean := SanitizeFilename(playlistName);
    var name := clean + " - " + playlistId + ".m3u";
    assert ManifestPath(outDir, playlistName, playlistId).name == name;
    assert name[|clean| + 3..|clean| + 3 + |playlistId|] == playlistId;
    assert OccursAt(name, playlistId, |clean| + 3);
    assert name[|name| - 4..] == ".m3u";
  }

  // ---------------------------------------------------------------------
  // Unknown files

  /** A file of the playlist folder with the playlist's extension but no id
      after its last `" - "`. */
  predicate IsUnknownFile(p: Path, c: Context) {
    p.dir == c.syncedDir && EndsWith(p.name, "." + c.ext) && LocalFileId(p.name).None?
  }

  function UnknownFiles(files: set<Path>, c: Context): set<Path> {
    set p | p in files && IsUnknownFile(p, c)
  }

  /** `{out_dir}/.arquivos_desconhecidos`. */
  function QuarantineDir(c: Context): string {
    c.outDir + "/.arquivos_desconhecidos"
  }

  /** Where `shutil.move` puts an unknown file: the quarantine folder, same name. */
  function QuarantinePath(c: Context, p: Path): Path {
    Path(QuarantineDir(c), p.name)
  }

  /** Where the given files end up. */
  function Quarantined(paths: set<Path>, c: Context): set<Path> {
    set p | p in paths :: QuarantinePath(c, p)
  }

  /** Moving one more file `p` out of the playlist folder. */
  lemma QuarantineOne(files: set<Path>, moved: set<Path>, p: Path, c: Context)
    requires p !in moved && p.dir != QuarantineDir(c)
    ensures (files - (moved + {p})) + Quarantined(moved + {p}, c) ==
            ((files - moved) + Quarantined(moved, c)) - {p} + {QuarantinePath(c, p)}
  {
    assert Quarantined(moved + {p}, c) == Quarantined(moved, c) + {QuarantinePath(c, p)};
  }

  /** One file `p` of the listing, after the files `moved` of the
      listing already seen: `p` is unknown exactly when it joins them. */
  lemma UnknownStep(files: set<Path>, c: Context, moved: set<Path>, listing: set<Path>, p: Path)
    requires p in listing && listing <= files && p.dir == c.syncedDir
    requires moved <= UnknownFiles(files, c) && moved !! listing && UnknownFiles(files, c) <= moved + listing
    ensures var moved' := if IsUnknownFile(p, c) then moved + {p} else moved;
      moved' <= UnknownFiles(files, c) && moved' !! (listing - {p}) && UnknownFiles(files, c) <= moved' + (listing - {p})
    ensures p !in moved && |moved + {p}| == |moved| + 1
  {
  }

  /** A file the program downloaded, `<id>.<ext>`, is never unknown. */
  lemma DownloadsAreKnown(c: Context, id: string)
    requires |id| == VideoIdLength && AllIdChars(id) && AllIdChars(c.ext)
    ensures !IsUnknownFile(SyncedPath(c, id), c)
  {
    LocalFileIdOfDownload(id, c.ext);
  }

  /** The quarantine folder is not the playlist folder, so a moved file is
      never listed again. */
  lemma QuarantineOutsidePlaylist(c: Context)
    requires Standard(c)
    ensures QuarantineDir(c) != c.syncedDir
  {
    var k := |c.outDir| + 2;
    assert c.syncedDir[k] == 's';
    assert QuarantineDir(c)[k] == 'a';
  }

  // ---------------------------------------------------------------------
  // Orphans

  /** The folder the cleanup lists: `{synced_dir}/{playlist_id}/.synced_playlist_data`. */
  function CleanupDir(c: Context): string {
    c.syncedDir + "/" + c.playlistId + "/" + DataFolder
  }

  /** An `.mp3`/`.mp4` name whose last four characters cut off is no known id. */
  predicate IsOrphanName(name: string, trackIds: set<string>) {
    (EndsWith(name, ".mp3") || EndsWith(name, ".mp4")) && name[..|name| - 4] !in trackIds
  }

  function Orphans(files: set<Path>, dir: string, trackIds: set<string>): set<Path> {
    set p | p in files && p.dir == dir && IsOrphanName(p.name, trackIds)
  }

  /** The state of the cleanup scan: `listing` is what is left to look at
      in `dir`, and `removed` are the orphans already met. */
  predicate Scanned(files: set<Path>, dir: string, trackIds: set<string>, removed: set<Path>, listing: set<Path>) {
    && listing <= files && (forall q :: q in listing ==> q.dir == dir)
    && removed <= Orphans(files, dir, trackIds) && removed !! listing
    && Orphans(files, dir, trackIds) <= removed + listing
  }

  /** The scan starts with the whole listing and ends with every orphan. */
  lemma ScanBounds(files: set<Path>, dir: string, trackIds: set<string>, removed: set<Path>)
    ensures Scanned(files, dir, trackIds, {}, Listing(files, dir))
    ensures Scanned(files, dir, trackIds, removed, {}) ==> removed == Orphans(files, dir, trackIds)
  {
  }

  /** One file `p` of the listing: `p` is an orphan exactly when it joins
      `removed`. */
  lemma OrphanStep(files: set<Path>, dir: string, trackIds: set<string>, removed: set<Path>,
                   listing: set<Path>, p: Path)
    requires Scanned(files, dir, trackIds, removed, listing) && p in listing
    ensures var removed' := if IsOrphanName(p.name, trackIds) then removed + {p} else removed;
      Scanned(files, dir, trackIds, removed', listing - {p})
    ensures p !in removed && |removed + {p}| == |removed| + 1
  {
  }

  /** A downloaded file `<id>.mp3` or `<id>.mp4` is trashed exactly when its
      id is not in `track_ids`. */
  lemma OrphanExactly(id: string, ext: string, trackIds: set<string>)
    requires ext == "mp3" || ext == "mp4"
    ensures IsOrphanName(id + "." + ext, trackIds) <==> id !in trackIds
  {
    var name := id + "." + ext;
    assert name[..|name| - 4] == id;
    assert name[|name| - 4..] == "." + ext;
  }

  /** As written, the cleanup lists a folder nested below the playlist
      folder, which none of the folders the sync fills is: no file it keeps,
      stages or reuses is ever a candidate. */
  lemma CleanupMissesSyncedFiles(c: Context, id: string)
    requires Standard(c) && c.oldDir == OldDir(c.outDir)
    ensures SyncedPath(c, id).dir != CleanupDir(c)
    ensures StagedPath(c, id).dir != CleanupDir(c)
    ensures OldPath(c, id).dir != CleanupDir(c)
  {
    assert |CleanupDir(c)| > |c.outDir| + 32;
  }
}
