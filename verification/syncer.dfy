/** `download_playlist` and `download_video` (main.py:168-403) as methods
    over the module state they change: `playlist_data`, `track_ids`,
    `m3u_data`, the files present and the manifests written. */
module Syncer {
  import opened Wrappers
  import opened Strings
  import opened OrderedDicts
  import opened YouTubeIds
  import opened Tracks
  import opened Manifest
  import opened FileSystem
  import opened SyncLoop
  import opened Downloads
  import opened Folders

  /** The ids of a dictionary as a set. */
  function KeySet<K, V>(d: Dict<K, V>): set<K> {
    set k | k in Keys(d)
  }

  /** main.py:249-252: the `.m3u` files of `out_dir` whose name contains
      the playlist id are removed; returns the files left. */
  method RemoveStaleManifests(files: set<Path>, outDir: string, playlistId: string)
    returns (remaining: set<Path>)
    ensures remaining == files - StaleManifests(files, outDir, playlistId)
  {
    remaining := files;
    ghost var stale := StaleManifests(files, outDir, playlistId);
    var listing := Listing(files, outDir);
    ghost var removed: set<Path> := {};
    while listing != {}
      invariant listing <= files
      invariant removed <= stale && removed !! listing && stale <= removed + listing
      invariant remaining == files - removed
      decreases listing
    {
      var p :| p in listing;
      if EndsWith(p.name, ".m3u") && Contains(p.name, playlistId) {
        remaining := remaining - {p};
        removed := removed + {p};
      }
      listing := listing - {p};
    }
  }

  /** main.py:266-282: files with the playlist's extension but without a
      video id move to `.arquivos_desconhecidos`; returns the files present
      afterwards and `unkown_files`. */
  method MoveUnknownFiles(files: set<Path>, c: Context) returns (remaining: set<Path>, unknownFiles: nat)
    requires Standard(c)
    ensures remaining == (files - UnknownFiles(files, c)) + Quarantined(UnknownFiles(files, c), c)
    ensures unknownFiles == |UnknownFiles(files, c)|
  {
    QuarantineOutsidePlaylist(c);
    remaining := files;
    ghost var unknown := UnknownFiles(files, c);
    var listing := Listing(files, c.syncedDir);
    ghost var moved: set<Path> := {};
    unknownFiles := 0;
    while listing != {}
      invariant listing <= files && forall q :: q in listing ==> q.dir == c.syncedDir
      invariant moved <= unknown && moved !! listing && unknown <= moved + listing
      invariant remaining == (files - moved) + Quarantined(moved, c)
      invariant unknownFiles == |moved|
      decreases listing
    {
      var p :| p in listing;
      UnknownStep(files, c, moved, listing, p);
      if EndsWith(p.name, "." + c.ext) && LocalFileId(p.name).None? {
        var target := Path(c.outDir + "/.arquivos_desconhecidos", p.name);
        QuarantineOne(files, moved, p, c);
        remaining := remaining - {p} + {target};
        moved := moved + {p};
        unknownFiles := unknownFiles + 1;
      }
      listing := listing - {p};
    }
    assert moved == unknown;
  }

  /** main.py:360-369: files of the cleanup folder `dir` named `<x>.mp3` or
      `<x>.mp4` with `x` not in `track_ids` go to the trash; returns the
      files left and `removed_files`. */
  method CleanupOrphans(files: set<Path>, dir: string, trackIds: set<string>)
    returns (remaining: set<Path>, removedFiles: nat)
    ensures remaining == files - Orphans(files, dir, trackIds)
    ensures removedFiles == |Orphans(files, dir, trackIds)|
  {
    remaining := files;
    var listing := Listing(files, dir);
    ghost var removed: set<Path> := {};
    removedFiles := 0;
    ScanBounds(files, dir, trackIds, removed);
    while listing != {}
      invariant Scanned(files, dir, trackIds, removed, listing)
      invariant remaining == files - removed
      invariant removedFiles == |removed|
      decreases listing
    {
      var p :| p in listing;
      OrphanStep(files, dir, trackIds, removed, listing, p);
      if IsOrphanName(p.name, trackIds) {
        remaining := remaining - {p};
        removed := removed + {p};
        removedFiles := removedFiles + 1;
      }
      listing := listing - {p};
    }
    ScanBounds(files, dir, trackIds, removed);
  }

  /** One pass of the loop body of main.py:305-341 over the loop's
      variables `st`: the track `id`, `track` of `new_tracks`. */
  method ClassifyTrack(c: Context, tags: Path -> AudioTag, st: Loop, id: string, track: Track) returns (r: Loop)
    ensures r == Step(c, tags, st, id, track)
  {
    var message := ErrorMessage(track.name);
    if message.Some? {
      var found := ReusableFile(c, st.files, id);
      if found.Some? {
        StepReused(c, tags, st, id, track, found.value);
        r := ReusedStep(c, tags, st, id, message.value, found.value);
      } else {
        StepMissing(c, tags, st, id, track);
        r := MissingStep(st, id);
      }
    } else if StagedPath(c, id) in st.files || SyncedPath(c, id) in st.files {
      StepKept(c, tags, st, id, track);
      r := KeptStep(c, st, id, track, StagedPath(c, id) in st.files);
    } else {
      StepQueued(c, tags, st, id, track);
      r := QueuedStep(c, st, id, track);
    }
  }

  /** The loop of main.py:303-341 over `new_tracks`, from `m3u_data`,
      `track_ids` and the files as they are; `tags` stands for the tags
      mutagen reads from a reused file. */
  method ClassifyTracks(c: Context, tags: Path -> AudioTag, tracks: Dict<string, Track>,
                        m3u: M3uData, trackIds: set<string>, files: set<Path>)
    returns (r: Loop)
    ensures r == Run(c, tags, Start(m3u, trackIds, files, |tracks|), tracks)
  {
    ghost var start := Start(m3u, trackIds, files, |tracks|);
    r := Loop(0, 0, 0, |tracks|, m3u, [], trackIds, files, []);
    var i := 0;
    while i < |tracks|
      invariant 0 <= i <= |tracks|
      invariant r == Run(c, tags, start, tracks[..i])
    {
      RunSnoc(c, tags, start, tracks, i);
      r := ClassifyTrack(c, tags, r, tracks[i].0, tracks[i].1);
      i := i + 1;
    }
    assert tracks[..|tracks|] == tracks;
  }

  /** What `download_playlist` works on: the cache `playlist_data`,
      `track_ids`, and the disk with `m3u_data`. */
  datatype SyncState = SyncState(playlistData: map<string, PlaylistData>, trackIds: set<string>, disk: Store)

  /** The state after one playlist is synced (main.py:241-369): the stale
      manifests go, the unknown files move out, `playlist_info.json` is
      written, the tracks are classified from the current `m3u_data`, the
      manifest is saved when some track was found on disk, the downloads
      run, `m3u_data` is cleared and the orphans of the cleanup folder go. */
  function AfterPlaylist(s: SyncState, outDir: string, onlyAudio: bool, data: PlaylistData,
                         tags: Path -> AudioTag, outcome: string -> Outcome): SyncState
  {
    var c := PlaylistContext(outDir, onlyAudio, data);
    var tracks := NewTracks(data.entries);
    var kept := s.disk.files - StaleManifests(s.disk.files, outDir, c.playlistId);
    var sorted := (kept - UnknownFiles(kept, c)) + Quarantined(UnknownFiles(kept, c), c);
    var listed := sorted + {Path(c.syncedDir, "playlist_info.json")};
    var r := Run(c, tags, Start(s.disk.m3u, s.trackIds, listed, |tracks|), tracks);
    var classified := Store(r.m3u, r.files, s.disk.manifests);
    var saved := if r.existing > 0 then SaveManifest(classified, ManifestPath(outDir, c.playlistName, c.playlistId))
                 else classified;
    var downloaded := AfterDownloads(saved, r.jobs, outcome);
    SyncState(s.playlistData, r.trackIds,
              Store([], downloaded.files - Orphans(downloaded.files, CleanupDir(c), r.trackIds), downloaded.manifests))
  }

  /** One id of the links file (main.py:212-239): a cached playlist is
      synced from `playlist_data`; another is extracted first, cached and
      synced, or skipped when the extraction fails. */
  function NextPlaylist(s: SyncState, id: string, outDir: string, onlyAudio: bool,
                        fetch: string -> Option<PlaylistData>,
                        tags: Path -> AudioTag, outcome: string -> Outcome): SyncState
  {
    if id in s.playlistData then AfterPlaylist(s, outDir, onlyAudio, s.playlistData[id], tags, outcome)
    else match fetch(id)
      case None => s
      case Some(data) =>
        AfterPlaylist(s.(playlistData := s.playlistData[id := data]), outDir, onlyAudio, data, tags, outcome)
  }

  /** The ids of the links file, one after the other. */
  function AfterPlaylists(s: SyncState, fileList: seq<string>, outDir: string, onlyAudio: bool,
                          fetch: string -> Option<PlaylistData>,
                          tags: Path -> AudioTag, outcome: string -> Outcome): SyncState
    decreases |fileList|
  {
    if fileList == [] then s
    else
      var n := |fileList| - 1;
      NextPlaylist(AfterPlaylists(s, fileList[..n], outDir, onlyAudio, fetch, tags, outcome),
                   fileList[n], outDir, onlyAudio, fetch, tags, outcome)
  }

  /** The fold over the links file, one id further. */
  lemma AfterPlaylistsNext(s: SyncState, fileList: seq<string>, i: int, outDir: string, onlyAudio: bool,
                           fetch: string -> Option<PlaylistData>,
                           tags: Path -> AudioTag, outcome: string -> Outcome)
    requires 0 <= i < |fileList|
    ensures AfterPlaylists(s, fileList[..i + 1], outDir, onlyAudio, fetch, tags, outcome) ==
            NextPlaylist(AfterPlaylists(s, fileList[..i], outDir, onlyAudio, fetch, tags, outcome),
                         fileList[i], outDir, onlyAudio, fetch, tags, outcome)
  {
    assert fileList[..i + 1][..i] == fileList[..i];
  }

  class Syncer {
    var playlistData: map<string, PlaylistData>
    var trackIds: set<string>
    var m3u: M3uData
    var files: set<Path>
    var manifests: map<Path, string>

    /** The state at start-up: empty caches over the files already present. */
    constructor(present: set<Path>)
      ensures playlistData == map[] && trackIds == {} && m3u == []
      ensures files == present && manifests == map[]
    {
      playlistData := map[];
      trackIds := {};
      m3u := [];
      files := present;
      manifests := map[];
    }

    function Disk(): Store
      reads this
    {
      Store(m3u, files, manifests)
    }

    function State(): SyncState
      reads this
    {
      SyncState(playlistData, trackIds, Disk())
    }

    /** `save_m3u(path)` (main.py:61-63). */
    method SaveManifest(path: Path)
      modifies this
      ensures Disk() == Downloads.SaveManifest(old(Disk()), path)
      ensures playlistData == old(playlistData) && trackIds == old(trackIds)
    {
      manifests := manifests[path := Content(m3u)];
      files := files + {path};
    }

    /** `download_video` (main.py:381-403) with the download's outcome given. */
    method DownloadVideo(job: Job, outcome: Outcome)
      modifies this
      ensures Disk() == AfterDownload(old(Disk()), job, outcome)
      ensures playlistData == old(playlistData) && trackIds == old(trackIds)
    {
      var written := WrittenFile(outcome);
      if written.Some? {
        files := files + {written.value};
      }
      if outcome.Downloaded? {
        m3u := Put(m3u, job.index, DownloadedLine(outcome.info, job.id, job.ext));
      }
      if written.Some? {
        files := files - {written.value} + {Path(job.playlistDir, written.value.name)};
        SaveManifest(JobManifestPath(job));
      }
    }

    /** The download list run job after job (main.py:348-356). */
    method DownloadAll(jobs: seq<Job>, outcome: string -> Outcome)
      modifies this
      ensures Disk() == AfterDownloads(old(Disk()), jobs, outcome)
      ensures playlistData == old(playlistData) && trackIds == old(trackIds)
    {
      var i := 0;
      while i < |jobs|
        invariant 0 <= i <= |jobs|
        invariant Disk() == AfterDownloads(old(Disk()), jobs[..i], outcome)
        invariant playlistData == old(playlistData) && trackIds == old(trackIds)
      {
        DownloadVideo(jobs[i], outcome(jobs[i].id));
        assert jobs[..i + 1][..i] == jobs[..i];
        i := i + 1;
      }
      assert jobs[..|jobs|] == jobs;
    }

    /** One iteration of the loop of `download_playlist` over the playlist
        ids (main.py:241-369), for a playlist whose data is known: stale
        manifests are removed, unknown files are moved out, the
        `playlist_info.json` is written, the tracks are classified, the
        manifest is saved when something was found, the downloads run, the
        manifest data is cleared and the cleanup folder is swept. */
    method SyncPlaylist(outDir: string, onlyAudio: bool, data: PlaylistData,
                        tags: Path -> AudioTag, outcome: string -> Outcome)
      modifies this
      ensures State() == AfterPlaylist(old(State()), outDir, onlyAudio, data, tags, outcome)
      ensures m3u == []
      ensures trackIds == old(trackIds) + KeySet(NewTracks(data.entries))
      ensures playlistData == old(playlistData)
      ensures forall p :: p in files && p.dir == CleanupDir(PlaylistContext(outDir, onlyAudio, data)) ==>
                !IsOrphanName(p.name, trackIds)
    {
      ghost var s0 := State();
      var c := PlaylistContext(outDir, onlyAudio, data);
      files := RemoveStaleManifests(files, outDir, c.playlistId);
      var tracks := NewTracks(data.entries);
      var unknownFiles;
      files, unknownFiles := MoveUnknownFiles(files, c);
      files := files + {Path(c.syncedDir, "playlist_info.json")};
      ghost var start := Start(m3u, trackIds, files, |tracks|);
      var r := ClassifyTracks(c, tags, tracks, m3u, trackIds, files);
      RunTrackIds(c, tags, start, tracks);
      m3u, trackIds, files := r.m3u, r.trackIds, r.files;
      if r.existing > 0 {
        SaveManifest(ManifestPath(outDir, c.playlistName, c.playlistId));
      }
      DownloadAll(r.jobs, outcome);
      m3u := [];
      var removedFiles;
      files, removedFiles := CleanupOrphans(files, CleanupDir(c), trackIds);
    }

    /** The body of the loop of `download_playlist` over the playlist ids
        (main.py:212-369) for one id: the data of a playlist comes from the
        cache `playlist_data` or from `fetch` (yt-dlp's flat extraction),
        and a playlist whose extraction fails is skipped. */
    method SyncId(id: string, outDir: string, onlyAudio: bool,
                  fetch: string -> Option<PlaylistData>,
                  tags: Path -> AudioTag, outcome: string -> Outcome)
      modifies this
      ensures State() == NextPlaylist(old(State()), id, outDir, onlyAudio, fetch, tags, outcome)
      ensures playlistData == if id in old(playlistData) || fetch(id).None? then old(playlistData)
                              else old(playlistData)[id := fetch(id).value]
      ensures old(trackIds) <= trackIds
      ensures id in playlistData ==> KeySet(NewTracks(playlistData[id].entries)) <= trackIds
    {
      var data: PlaylistData;
      if id in playlistData {
        data := playlistData[id];
      } else {
        var fetched := fetch(id);
        if fetched.None? {
          return;
        }
        data := fetched.value;
        playlistData := playlistData[id := data];
      }
      SyncPlaylist(outDir, onlyAudio, data, tags, outcome);
    }

    /** `download_playlist` (main.py:168-369) over the playlist ids of one
        links file, one after the other. */
    method DownloadPlaylists(fileList: seq<string>, outDir: string, onlyAudio: bool,
                             fetch: string -> Option<PlaylistData>,
                             tags: Path -> AudioTag, outcome: string -> Outcome)
      modifies this
      ensures State() == AfterPlaylists(old(State()), fileList, outDir, onlyAudio, fetch, tags, outcome)
      ensures forall id :: id in old(playlistData) ==> id in playlistData && playlistData[id] == old(playlistData)[id]
      ensures forall id :: id in playlistData ==> id in old(playlistData) || (id in fileList && fetch(id).Some?)
      ensures forall id :: id in fileList ==> (id in playlistData <==> id in old(playlistData) || fetch(id).Some?)
      ensures old(trackIds) <= trackIds
      ensures forall id :: id in fileList && id in playlistData ==>
                KeySet(NewTracks(playlistData[id].entries)) <= trackIds
    {
      var i := 0;
      while i < |fileList|
        invariant 0 <= i <= |fileList|
        invariant State() == AfterPlaylists(old(State()), fileList[..i], outDir, onlyAudio, fetch, tags, outcome)
        invariant forall id :: id in old(playlistData) ==> id in playlistData && playlistData[id] == old(playlistData)[id]
        invariant forall id :: id in playlistData ==> id in old(playlistData) || (id in fileList[..i] && fetch(id).Some?)
        invariant forall id :: id in fileList[..i] ==> (id in playlistData <==> id in old(playlistData) || fetch(id).Some?)
        invariant old(trackIds) <= trackIds
        invariant forall id :: id in fileList[..i] && id in playlistData ==>
                    KeySet(NewTracks(playlistData[id].entries)) <= trackIds
      {
        assert fileList[..i + 1] == fileList[..i] + [fileList[i]];
        AfterPlaylistsNext(old(State()), fileList, i, outDir, onlyAudio, fetch, tags, outcome);
        SyncId(fileList[i], outDir, onlyAudio, fetch, tags, outcome);
        i := i + 1;
      }
      assert fileList[..|fileList|] == fileList;
    }
  }
}
