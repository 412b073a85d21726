# youtube-playlist-sync in Dafny

A model of the core of youtube-playlist-sync, with proofs about it. The
program keeps local copies of YouTube playlists, a Discord "listening"
presence for the tracks a desktop player has open, and a small Last.fm
client.

- **The sync pipeline** (`main.py`). The ids of the playlists are read from
  a links file. For each playlist, the program does the following:
  - Builds `new_tracks` from the flat extraction of the playlist.
  - Removes the playlist's stale `.m3u` files.
  - Moves files without a video id out of the playlist folder.
  - Classifies every track in turn: kept (its file is present), reused
    (a deleted or private video whose old file is still around), missing,
    or queued for download with a running `index`/`counter`.
  - Writes the manifest (`m3u_data` joined by blank lines, in insertion
    order).
  - Runs the downloads, which store their own manifest lines.
  - Clears `m3u_data` and sweeps a cleanup folder for files whose id is not
    in `track_ids`.

  `AfterPlaylist` composes these steps into the state after one playlist,
  and `AfterPlaylists` folds it over the links file.

  The file system is a set of paths: a directory text and a name. yt-dlp's
  extraction and downloads and mutagen's tags are inputs. The sequential
  parts are written in the source's own form:
  - the directory sweeps and the classification loop are methods with
    loops;
  - the module-level `playlist_data`, `track_ids` and `m3u_data` are fields
    of the `Syncer` class;
  - the classification loop is specified by the function `Step`, folded by
    `Run`; the invariant `Inv` and the lemmas state what the loop keeps.
- **The Discord presence** (`discord_rpc.py`). This covers:
  - which process counts as a media player (a substring test) and which
    player entry it gets (an exact lookup);
  - which open file is a synced track;
  - the fields `RpcRun` sets and clears;
  - the activity payload built from them: the author line, the playlist
    button label, the listen URL and the track index;
  - `MyDiscordIPC.update_activity`'s `last_data`.

  `RpcRun` and the client are classes whose methods update their fields.
- **The Last.fm client** (`utils/lastfm.py`). This covers:
  - the parameter map each call sends, in insertion order;
  - the signature pre-image (the Last.fm API authentication scheme, "Sign
    your calls"): keys in ascending order, each followed by its value, then
    the secret;
  - that `api_sig` and `format` are never signed;
  - the error check on the reply.

  MD5 (RFC 1321) is a function parameter `md5`.

Python dictionaries that keep insertion order (`m3u_data`, `new_tracks`, the
Last.fm parameters) are sequences of pairs (`OrderedDicts.Dict`). `Put`
keeps an existing key in its place and appends a new one. Python's string
order is the lexicographic order of `Ordering.LessEq`.

## Model

| member | source | states |
|---|---|---|
| Filenames.SanitizeFilenameSpec | main.py:88-89 | The result contains none of `<>:"/\|?*`. Each such character became `-` and every other character is kept in place. It never ends in `.` or a space, and only dots and spaces were cut from the end. |
| Filenames.SanitizeFilenameIdempotent | main.py:88-89 | Sanitising twice gives what sanitising once gives, so the re-sanitised playlist name in the `.m3u` path (main.py:344) is the one shown. |
| Filenames.RStrip | main.py:89 | `rstrip`: the result is a prefix of the input that does not end in a stripped character, and only stripped characters were removed. |
| YouTubeIds.PlaylistIdsAscending | main.py:116 | The playlist ids read from a links file are strictly ascending, so there are no duplicates. |
| YouTubeIds.PlaylistIdsSound | main.py:22 | Every id in the list is a nonempty maximal run of `[A-Za-z0-9_-]` that follows `list=` somewhere in the text. |
| YouTubeIds.PlaylistIdsComplete | main.py:135 | Every run of id characters that follows `list=` in the text is in the list. |
| YouTubeIds.RunIsMatch | main.py:22 | A greedy run after `list=` is a regex match, and no other `list=` ends inside it. |
| YouTubeIds.TokenFrom | main.py:24 | The leftmost 11-character id token at or after a position: bounded by start of text or a non-word character before it, and by end of text or a non-word character after it. No token lies before it; `None` means there is none. |
| YouTubeIds.LocalFileIdOfDownload | main.py:274 | A file named `<id>.<ext>`, as downloads are named, yields its own id. |
| YouTubeIds.LocalFileIdPlain | main.py:274 | A name without `" - "` is searched as a whole. |
| Tracks.NewTracksKeys | main.py:254-260 | The keys of `new_tracks` are the ids of the non-live entries, each once, in first-seen order. |
| Tracks.NewTracksValue | main.py:255-258 | The value stored under an id comes from the last non-live entry with that id. |
| Tracks.NewTracksMembership | main.py:259 | An id is a key exactly when some entry with that id has a falsy `live_status`. |
| Manifest.ContentReadBack | main.py:61-63 | `save_m3u` writes the values of `m3u_data` joined by a blank line, in insertion order. An empty map gives empty content. Splitting the content at the blank lines gives back the values when no line contains a blank line or ends in a line break. |
| Manifest.SplitJoin | main.py:63 | Joining lines without a blank line by `"\n\n"` and splitting again gives the lines back. |
| SyncLoop.Step | main.py:303-341 | One iteration adds the id to `track_ids`. It advances `index` exactly when the title is neither `[Deleted video]` nor `[Private video]`, and records one disposition for the track. |
| SyncLoop.MissingStep | main.py:305-312 | A deleted or private track with no file in `old_dir` or `synced_dir` lowers `total_entries` and adds its id to `track_ids`. `index`, `counter`, `existing`, `m3u_data`, the jobs and the files are unchanged. |
| SyncLoop.ReusedStep | main.py:305-319 | A deleted or private track with a file lowers `total_entries`, adds its id to `track_ids` and counts as existing. Its reused line is stored at the current `index`, which does not advance. The files are unchanged. |
| SyncLoop.KeptStep | main.py:322-333 | A present track advances `index`, lowers `total_entries` and counts as existing. Its line is stored at the new `index`. A staged file moves to the playlist folder, and otherwise the files are unchanged. |
| SyncLoop.QueuedStep | main.py:322-341 | A missing track advances `index` and `counter` and appends one job. The job carries the track's id and name, the new `counter` and `index`, the playlist folder, `out_dir` and the extension. `total_entries`, `existing`, `m3u_data` and the files are unchanged. |
| SyncLoop.RunSnoc | main.py:303 | The loop over one more entry of `new_tracks` is one more iteration. |
| SyncLoop.StepInv | main.py:303-341 | One iteration keeps the invariant. The job counters run 1..k with `counter` k. The jobs are the queued tracks in order. `existing` counts kept and reused tracks. Every kept or reused track has a manifest line. Job slots increase strictly and are never a kept track's slot. |
| SyncLoop.RunInv | main.py:303-341 | The invariant holds after the whole loop. |
| SyncLoop.StartInv | main.py:288-292 | The invariant holds before the loop (`index`, `counter` and `existing` at 0). |
| SyncLoop.RunIndex | main.py:322 | `index` grows by exactly the number of tracks that are neither deleted nor private. |
| SyncLoop.RunTrackIds | main.py:305 | After the loop `track_ids` is its old value plus every id of `new_tracks`, and nothing else. |
| SyncLoop.RunPlan | main.py:307-341 | Each track gets exactly one disposition, in order. A normal track is kept or queued, never both; a deleted or private one is reused or missing. |
| SyncLoop.ReusedTakesPreviousSlot | main.py:316 | A reused deleted or private file is stored under the current `index` without advancing it. When the track before it was kept, the kept track's line is overwritten. |
| SyncLoop.ReusedLineNamesOldDir | main.py:316-318 | A reused line names the file under `old_dir`, even when the file was found only in `synced_dir`. |
| Downloads.DownloadMovesAndSaves | main.py:397-401 | A download that left its file, whatever the files were before, ends with the file in the playlist folder under its base name and no longer at yt-dlp's path. The manifest then holds `m3u_data` including this download's line. |
| Downloads.DownloadWithoutFile | main.py:397-402 | A download with no path, or whose file is gone (`FileNotFoundError`), changes neither the files nor the manifests. |
| Downloads.DownloadedFilesMoved | main.py:348-356 | After all the jobs, the playlist folder holds the file of every download that left one, as long as no download writes into that folder itself. |
| Downloads.DownloadsKeepOtherSlots | main.py:391-392 | After all jobs run, a slot that no finished download targets keeps its line. |
| Downloads.DownloadedSlots | main.py:391-392 | With strictly increasing job slots, every finished download's line is at its slot after all jobs run. |
| Downloads.KeptLinesSurvive | main.py:329-330 | After the loop and the downloads, a kept track's line is still there: no job shares its slot. |
| Downloads.DownloadAppends | main.py:391 | A line stored at a new slot goes after every existing line, whatever its number. The file follows insertion order, not slot order. |
| Downloads.KeptEntryPath | main.py:329-330 | A kept track's entry, resolved against `out_dir`, names its file in the playlist folder. |
| Downloads.DownloadedEntryPath | main.py:392 | A downloaded track's entry names the staging path under `.synced_playlist_data`. That is not where main.py:400 moved the file. |
| Downloads.ReusedEntryPath | main.py:318 | A reused track's entry names its file under `old_dir`. |
| Folders.OwnManifestIsStale | main.py:249-252 | The manifest a previous run wrote for the playlist (main.py:344) is one of the stale `.m3u` files that get removed. |
| Folders.DownloadsAreKnown | main.py:268-282 | A downloaded `<id>.<ext>` file is never an unknown file. |
| Folders.QuarantineOutsidePlaylist | main.py:279-280 | The `.arquivos_desconhecidos` folder is not the playlist folder. |
| Folders.OrphanExactly | main.py:364-368 | `<id>.mp3` or `<id>.mp4` is trashed exactly when `id` is not in `track_ids`. |
| Folders.CleanupMissesSyncedFiles | main.py:364 | The folder the cleanup lists, `{synced_dir}/{playlist_id}/.synced_playlist_data`, is none of the folders the sync fills. No kept, staged or reused file is ever a cleanup candidate. |
| Folders.UnknownStep | main.py:268-282 | Scanning one more file of the listing keeps the account of the unknown files moved so far. |
| Folders.OrphanStep | main.py:364-369 | Scanning one more file of the cleanup listing keeps the account of the orphans met so far. |
| Syncer.RemoveStaleManifests | main.py:249-252 | The files left are the files minus the `.m3u` files of `out_dir` whose name contains the playlist id. |
| Syncer.MoveUnknownFiles | main.py:266-282 | The unknown files of the playlist folder are moved to the quarantine folder under the same name, and `unkown_files` is their number. |
| Syncer.CleanupOrphans | main.py:360-369 | Exactly the orphans of the cleanup folder are trashed, and `removed_files` is their number. |
| Syncer.ClassifyTrack | main.py:305-341 | The loop body's branches compute `Step`. |
| Syncer.ClassifyTracks | main.py:288-341 | The loop over `new_tracks`, from counters at 0, computes `Run`. |
| Syncer.Syncer.constructor | main.py:54-58 | The caches `playlist_data`, `track_ids` and `m3u_data` start empty. |
| Syncer.Syncer.SaveManifest | main.py:61-63 | The manifest file at the path holds `m3u_data`'s content. Nothing else changes. |
| Syncer.Syncer.DownloadVideo | main.py:381-403 | One download stores its line in `m3u_data` when it finished. The file yt-dlp wrote is moved into the playlist folder and the manifest is saved. A download without a path, or whose file is gone at the move, leaves the files and manifests. |
| Syncer.Syncer.DownloadAll | main.py:348-356 | The jobs run one after another in list order. |
| Syncer.Syncer.SyncPlaylist | main.py:241-369 | The new caches and disk are `AfterPlaylist` of the old ones. In order: stale manifests removed, unknown files moved out, `playlist_info.json` added, the tracks classified by `Run`, the manifest saved when `existing > 0`, the downloads run, `m3u_data` cleared, orphans swept. After one playlist, `m3u_data` is empty. `track_ids` has grown by exactly the ids of `new_tracks`. The cleanup folder holds no orphan. |
| Syncer.Syncer.SyncId | main.py:212-369 | One id of the links file leaves the state `NextPlaylist` gives. The cache gains the extracted data only for an uncached id whose extraction succeeds. `track_ids` only grows, and covers the tracks of the id's playlist once it is cached. |
| Syncer.Syncer.DownloadPlaylists | main.py:210-242 | The new caches and disk are `AfterPlaylists`: the ids of the links file in order, each synced from the cache, or extracted, cached and synced, or skipped when extraction fails. Cached playlist data is kept unchanged. New data comes only from a successful extraction of a listed id. A listed id is cached afterwards exactly when it was before or its extraction succeeded. `track_ids` only grows and covers the tracks of every listed, cached playlist. |
| Presence.MatchingKeys | discord_rpc.py:305 | The keys kept are exactly the keys whose lower case occurs in the lower-cased process name. |
| Presence.CandidatePlayerIff | discord_rpc.py:305 | A process is a candidate player if and only if some lower-cased key of `players` is a substring of its lower-cased name. |
| Presence.KnownPlayerIsCandidate | discord_rpc.py:295-305 | A process named like a key, in any case, is a candidate and has an entry. |
| Presence.CandidateWithoutEntry | discord_rpc.py:295-305 | `myvlc.exe` is a candidate (it contains `vlc.exe`) but has no entry. The exact lookup fails where the substring test passed. |
| Presence.RecognisedFile | discord_rpc.py:272 | A file is recognised exactly when its path ends in `.mp3` or `.mp4` and contains an 11-character id token. The id is that token. |
| Presence.FirstUsableFound | discord_rpc.py:270-277 | The file found is recognised and has a `playlist_info.json`; no earlier file does. |
| Presence.FirstUsableNone | discord_rpc.py:270-277 | Nothing is found exactly when no open file is usable. |
| Presence.FirstPlayerFound | discord_rpc.py:303-310 | The process found is a candidate with a usable file, and no earlier process is. |
| Presence.FirstPlayerNone | discord_rpc.py:303-312 | No process is found exactly when no process is a candidate with a usable file. |
| Presence.AfterCheckFound | discord_rpc.py:278-299 | A check that finds an `.mp4` file raises once only the playlist name and id are set. A check that finds an `.mp3` file ends in a match exactly when the process has an entry. It sets an 11-character video id, the process and the file's track number, even when that is `None`. A failed lookup leaves the player fields as they were. |
| Presence.AfterCheckNoMatch | discord_rpc.py:268-299 | A check returns nothing exactly when no file is usable, and then changes no field. |
| Presence.StateAuthorsPrefix | discord_rpc.py:227 | The state line shows a prefix of the author string: its first four authors, and the whole string when there are at most four. |
| Presence.PlaylistLabel | discord_rpc.py:241 | The label ends in the name cut to 25 characters (18 with an emoji, discord_rpc.py:216). The cut name is used alone exactly when it is longer than 13 characters, and otherwise follows `Playlist: `. |
| Presence.ListenUrl | discord_rpc.py:238 | The URL is `watch?v={video_id}&list={playlist_id}` followed by the `playlist_info.json` value for the video id, or by nothing when there is none. |
| Presence.TrackIndexOfFraction | discord_rpc.py:248-249 | A track number `k/n` gives the index `k-1`. |
| Presence.TrackIndexRaw | discord_rpc.py:250-251 | A track number whose first part does not parse gives itself. |
| Presence.PayloadOf | discord_rpc.py:216-253 | A payload is built exactly when the playlist name and the author are set. It carries the author line, the details, the thumbnail and the playlist button. |
| Presence.PayloadListenButton | discord_rpc.py:247-253 | With a track number `k/n`, the listen URL gains `&index={k-1}` and its label gains ` (k/n)`. |
| Presence.PayloadWithoutTrackNumber | discord_rpc.py:247 | Without a track number the listen button is left as built. |
| Presence.ClearedHasNoPayload | discord_rpc.py:167-172 | After `clear_info` no payload can be built. |
| Presence.CheckedHasPayload | discord_rpc.py:278-285 | After a check that finds a file, a payload can be built, unless the check raised on an `.mp4` file before any author was set. |
| Presence.RpcRun.constructor | discord_rpc.py:153-163 | Every field starts as `None`. |
| Presence.RpcRun.ClearInfo | discord_rpc.py:167-177 | Playlist id and name, author, track name and video id are reset. The track number, the process and the player are kept. |
| Presence.RpcRun.CheckProcess | discord_rpc.py:268-299 | Scanning the open files in order sets the fields from the first usable file, as `AfterCheck` says. |
| Presence.RpcRun.GetProcess | discord_rpc.py:301-312 | The first candidate with a usable file is checked. Its outcome decides the fields, the process returned and whether the check raised: on a failed player lookup or on an `.mp4` file. With none, only `process` is reset. |
| Presence.RpcRun.Payload | discord_rpc.py:216-253 | The payload built and then extended in place is `PayloadOf` of the fields. |
| Presence.DiscordClient.UpdateActivity | discord_rpc.py:109-120 | `last_data` becomes the activity when the update goes through, and is cleared otherwise. The exception is passed on exactly when the update fails. |
| LastFm.Checked | utils/lastfm.py:16-19 | A reply with a present, non-zero `error` raises `LastFmException` with that code and message. Any other reply is returned unchanged. |
| LastFm.Preimage | utils/lastfm.py:44-45 | The signed text ends with the secret. |
| LastFm.PreimageKeyOrder | utils/lastfm.py:44 | Each key is visited exactly once, in strictly ascending order. |
| LastFm.PreimageOrderIndependent | utils/lastfm.py:44 | Two maps with the same entries, inserted in any order, give the same signed text. |
| LastFm.Signature | utils/lastfm.py:43-46 | `generate_api_sig` under a secret: every map with the same entries as the one signed, in any insertion order, gets the same signature, `md5` of its pre-image. |
| LastFm.SignedThenFormatted | utils/lastfm.py:104 | As at utils/lastfm.py:80 and 124, a signed map is sent as its fields, then `api_sig` over exactly those fields, then `format`. Neither `api_sig` nor `format` is signed. |
| LastFm.FormatLast | utils/lastfm.py:48-57 | An unsigned request gets `format=json` last. |
| LastFm.ScrobbleFieldsKeys | utils/lastfm.py:86-102 | A scrobble has the six fixed keys. `chosenByUser[0]` is added exactly when the user did not choose the track. `album` and `duration` are added exactly when truthy. `api_sig` and `format` are never among them. |
| LastFm.ScrobbleFieldsValues | utils/lastfm.py:86-102 | A scrobble sends the artist, the track, the session key and a timestamp 30 s before now. `chosenByUser[0]` is `"0"`, and the duration is decimal text. |
| LastFm.ScrobbleBuilt | utils/lastfm.py:86-102 | The source's conditional insertions build exactly the scrobble map. |
| LastFm.NowPlayingFieldsKeys | utils/lastfm.py:110-122 | A now-playing update has exactly method, artist, track, timestamp, api_key and sk, then `album` and `duration` exactly when truthy. |
| LastFm.SimilarFieldsKeys | utils/lastfm.py:140-163 | With an mbid, the similar-items requests send it and no track or artist name. Without one, they name the track, and the artist when given. |
| LastFm.ScrobbleRequest | utils/lastfm.py:104-106 | A scrobble is sent as its fields, signed over exactly them, then `format`. |
| LastFm.NowPlayingRequest | utils/lastfm.py:124-126 | A now-playing update is sent as its fields, signed over exactly them, then `format`. |
| LastFm.SessionRequest | utils/lastfm.py:75-81 | A session-key request is sent as its three fields, signed over them, then `format`. |
| LastFm.LastFmClient.constructor | utils/lastfm.py:24-26 | The client keeps its API key and secret. |
| LastFm.LastFmClient.Call | utils/lastfm.py:48-62 | `format=json` is set on the map sent, and an error reply raises. |
| LastFm.LastFmClient.GetToken | utils/lastfm.py:64-72 | The token request sends method, api_key and format, unsigned. |
| LastFm.LastFmClient.GetSessionKey | utils/lastfm.py:74-81 | The session-key request is the signed session fields with `format`. |
| LastFm.LastFmClient.TrackScrobble | utils/lastfm.py:83-106 | The scrobble sends the signed scrobble fields with `format`. |
| LastFm.LastFmClient.UpdateNowPlaying | utils/lastfm.py:108-126 | The now-playing update sends the signed fields with `format`. |
| LastFm.LastFmClient.SearchTrack | utils/lastfm.py:128-137 | The search sends its fields unsigned, with `format`. |
| LastFm.LastFmClient.GetSimilarTracks | utils/lastfm.py:139-152 | The similar-tracks request sends its fields unsigned, with `format`. |
| LastFm.LastFmClient.GetSimilarArtists | utils/lastfm.py:154-165 | The similar-artists request sends its fields unsigned, with `format`. |
| LastFm.LastFmClient.UserInfo | utils/lastfm.py:167-173 | The user request sends method, api_key, sk and format, unsigned. |
| Ordering.SortedSetSpec | main.py:116 | `sorted(list(set(xs)))` is strictly ascending with exactly the elements of `xs`. It does not depend on the order the set is listed in. |
| OrderedDicts.Put | main.py:329-330 | A dictionary assignment (also at main.py:316 and 391) keeps an existing key in its place, appends a new one, and makes the key map to the value. |
| OrderedDicts.PutOther | main.py:391 | A dictionary assignment leaves every other key's value unchanged. |
| Strings.JoinSplit | discord_rpc.py:227 | Joining the pieces of a split with the same separator gives back the text. |

## Left out

- Threads: the downloads run one after another in list order, not on a two-worker pool; `time.sleep` and all logging and `print` output are left out.
- yt-dlp's extraction and download, mutagen's tag reading, `send2trash`, `shutil.move` and `os.listdir` are inputs or set operations on the file set. The yt-dlp options are not modelled.
- `run()`'s setup (ffmpeg probing, cookies, the links and directory files) and `make_dirs`/`move_dir` are not modelled. The folders they create are taken to exist.
- The `os.path.isdir(f"{synced_dir}/{playlist_id}")` guard (main.py:360) is not modelled: `Syncer.Syncer.SyncPlaylist` sweeps the cleanup folder as if it existed. When it does not exist, the source skips the sweep.
- The content of `playlist_info.json` (main.py:296-301) is not modelled, only its path among the files. The presence reads its title, id and per-video suffix as inputs.
- SyncLoop.ReusedStep: takes the tags of a reused file as readable. With the video extension `mp4`, `MP3(deleted_file, ID3=EasyID3)` (main.py:315-316) raises on the MP4 file, and the exception ends `download_playlist` uncaught; the model stores the reused line instead.
- SyncLoop.OldDir: joins `out_dir` and the deleted-files folder with `/`. On Windows, `os.path.join` (main.py:173) puts a `\` between them.
- Syncer.AfterPlaylists: one `outcome` (keyed by video id) and one `tags` serve every playlist, so a video listed in two playlists gets the same download result both times. The source downloads it again, independently, for each playlist.
- File names are taken to contain no `/`, and paths are compared as text, with no normalisation or case folding.
- KeyError paths are not modelled: an entry without `live_status` (main.py:259), a missing `title`/`artist` tag, a reply without `token`/`session`, or a JSON file without `title`/`id`. The fields are taken to be present.
- YouTubeIds.TokenFrom: `\W` is decided on ASCII only; Python's `re` also counts non-ASCII letters and digits as word characters.
- Strings.Lower: lower-cases ASCII letters only; Python's `str.lower` also folds non-ASCII letters.
- Presence.TrackIndexText: `int()` is modelled as an optional sign followed by ASCII digits. Surrounding whitespace, underscores and non-ASCII digits, which Python also accepts, are not.
- Whether `emoji.emoji_count(name) >= 1` holds is the boolean parameter `hasEmoji`.
- psutil's process list, a process's open files and `is_running` are inputs. The Discord IPC connection, `_send`, `_get_ipc_path` and the reconnect logic are not modelled, nor is the endless `start_loop` with its timing.
- Presence.DiscordClient.UpdateActivity: `last_data` is modelled as a value, so the aliasing between the activity passed in and the dictionary later cleared is not captured.
- MD5 is the parameter `md5`, and `int(time.time())` is the integer `now`.
- The Last.fm HTTP transport, the `TTLCache` and its pickle file, `open_browser_for_auth` and its retry loop are not modelled.
- The Last.fm methods return the checked reply whole; picking out `data['token']` or the nested result lists is not modelled.
- An optional Last.fm argument left as `None` (`artist`, `mbid`) is the empty string, which Python's truthiness treats the same way.
- Last.fm parameter names are the fixed enumeration `LastFm.Field`, so the signature's key order is over those names only.
- `utils/spotify.py` and the ffmpeg checks are not part of this model.
