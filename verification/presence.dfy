/** The Discord presence of `discord_rpc.py`: which process counts as a
    media player, which of its open files is a synced track, the fields
    `RpcRun` keeps about it and the activity payload built from them
    (discord_rpc.py:23-80, 109-120, 151-312). */
module Presence {
  import opened Wrappers
  import opened Strings
  import opened OrderedDicts
  import opened YouTubeIds

  // ---------------------------------------------------------------------
  // Players

  datatype Player = Player(name: string, icon: string)

  const PotPlayerIcon := "https://upload.wikimedia.org/wikipedia/commons/e/e0/PotPlayer_logo_%282017%29.png"
  const MpcIcon := "https://upload.wikimedia.org/wikipedia/commons/7/76/Media_Player_Classic_logo.png"

  /** `players` (discord_rpc.py:23-80), in its insertion order. */
  const PlayerTable: Dict<string, Player> := [
    ("potplayermini64.exe", Player("Daum PotPlayer (x64)", PotPlayerIcon)),
    ("potplayermini.exe", Player("Daum PotPlayer", PotPlayerIcon)),
    ("mpc-hc64.exe", Player("Media Player Classic HC-x64", MpcIcon)),
    ("mpc-hc.exe", Player("Media Player Classic HC", MpcIcon)),
    ("foobar2000.exe", Player("foobar2000", "https://i.sstatic.net/JowsQ.jpg")),
    ("vlc.exe", Player("VLC Player",
      "https://cdn1.iconfinder.com/data/icons/metro-ui-dock-icon-set--icons-by-dakirby/512/VLC_Media_Player.png")),
    ("winamp.exe", Player("Winamp", "https://iili.io/dsKTaUB.md.png")),
    ("aimp.exe", Player("AIMP", "https://iili.io/dsKpuSV.md.png")),
    ("musicbee.exe", Player("MusicBee", "https://iili.io/dsf9KQe.png")),
    ("mediamonkeyengine.exe", Player("Media Monkey", "https://iili.io/dsfaPs9.png")),
    ("kmplayer.exe", Player("KM Player",
      "https://cdn6.aptoide.com/imgs/b/4/8/b48d248dc9514b23279b87e3e3c70c7d_icon.png?w=512"))
  ]

  /** `[p for p in keys if p.lower() in lowerName]`. */
  function MatchingKeys(keys: seq<string>, lowerName: string): (r: seq<string>)
    ensures forall x :: x in r ==> x in keys && Contains(lowerName, Lower(x))
    ensures forall x :: x in keys && Contains(lowerName, Lower(x)) ==> x in r
  {
    if keys == [] then []
    else (if Contains(lowerName, Lower(keys[0])) then [keys[0]] else []) + MatchingKeys(keys[1..], lowerName)
  }

  /** The test of `get_process` (discord_rpc.py:305): the list of keys of
      `players` found in the lower-cased process name is not empty. */
  predicate IsCandidatePlayer(players: Dict<string, Player>, processName: string) {
    MatchingKeys(Keys(players), Lower(processName)) != []
  }

  /** A process is a candidate exactly when some lower-cased key of
      `players` occurs in its lower-cased name. */
  lemma CandidatePlayerIff(players: Dict<string, Player>, processName: string)
    ensures IsCandidatePlayer(players, processName) <==>
            exists k :: k in Keys(players) && Contains(Lower(processName), Lower(k))
  {
    var r := MatchingKeys(Keys(players), Lower(processName));
    if r != [] {
      assert r[0] in r;
    }
  }

  /** `players.get(proc.name().lower())` (discord_rpc.py:295): an exact
      lookup, unlike the substring test. */
  function PlayerInfo(players: Dict<string, Player>, processName: string): Option<Player> {
    Get(players, Lower(processName))
  }

  /** A process whose lower-cased name is no key has no entry. */
  lemma NoEntry(players: Dict<string, Player>, processName: string)
    requires Lower(processName) !in Keys(players)
    ensures PlayerInfo(players, processName).None?
  {
  }

  /** A process whose lower-cased name contains a lower-cased key is a
      candidate. */
  lemma ContainsKeyIsCandidate(players: Dict<string, Player>, processName: string, k: string)
    requires k in Keys(players) && Contains(Lower(processName), Lower(k))
    ensures IsCandidatePlayer(players, processName)
  {
  }

  lemma LowerIdempotent(s: string)
    ensures Lower(Lower(s)) == Lower(s)
  {
  }

  /** A process named like a key whose text is lower case, in any case, is
      a candidate and has an entry. */
  lemma KnownPlayerIsCandidate(players: Dict<string, Player>, processName: string)
    requires Lower(processName) in Keys(players)
    ensures IsCandidatePlayer(players, processName) && PlayerInfo(players, processName).Some?
  {
    var k := Lower(processName);
    LowerIdempotent(processName);
    assert OccursAt(k, Lower(k), 0);
    ContainsKeyIsCandidate(players, processName, k);
  }

  lemma VlcIsPlayer()
    ensures "vlc.exe" in Keys(PlayerTable)
  {
    assert PlayerTable[5].0 == "vlc.exe";
  }

  /** The process name `myvlc.exe`: `my` followed by a key of the table. */
  const MyVlc: string := "my" + "vlc.exe"

  lemma MyVlcIsNoPlayer()
    ensures MyVlc !in Keys(PlayerTable)
  {
    assert |MyVlc| == 9;
    forall i | 0 <= i < |PlayerTable| ensures PlayerTable[i].0 != MyVlc {
      assert |PlayerTable[i].0| != 9;
    }
  }

  /** A text without capital letters is its own lower case. */
  lemma LowerOfLowerCase(s: string)
    requires forall i :: 0 <= i < |s| ==> !('A' <= s[i] <= 'Z')
    ensures Lower(s) == s
  {
    assert forall i :: 0 <= i < |s| ==> Lower(s)[i] == s[i];
  }

  /** `b` occurs in `a + b` right after `a`. */
  lemma OccursAfter(a: string, b: string)
    ensures OccursAt(a + b, b, |a|)
  {
    assert (a + b)[|a|..|a| + |b|] == b;
  }

  lemma MyVlcIsLowerCase()
    ensures Lower(MyVlc) == MyVlc
  {
    LowerOfLowerCase(MyVlc);
  }

  lemma VlcIsLowerCase()
    ensures Lower("vlc.exe") == "vlc.exe"
  {
    LowerOfLowerCase("vlc.exe");
  }

  lemma MyVlcContainsVlc()
    ensures Contains(Lower(MyVlc), Lower("vlc.exe"))
  {
    MyVlcIsLowerCase();
    VlcIsLowerCase();
    OccursAfter("my", "vlc.exe");
  }

  /** A candidate need not have an entry: `myvlc.exe` contains `vlc.exe`,
      but looking it up gives nothing, so `check_process` fails on it
      after having set the track fields. */
  lemma CandidateWithoutEntry()
    ensures IsCandidatePlayer(PlayerTable, MyVlc) && PlayerInfo(PlayerTable, MyVlc).None?
  {
    VlcIsPlayer();
    MyVlcIsNoPlayer();
    MyVlcContainsVlc();
    MyVlcIsLowerCase();
    NoEntry(PlayerTable, MyVlc);
    ContainsKeyIsCandidate(PlayerTable, MyVlc, "vlc.exe");
  }

  // ---------------------------------------------------------------------
  // Open files

  /** `o.path.endswith((".mp3", ".mp4")) and yt_video_regex.search(o.path)`
      (discord_rpc.py:272): the id token is searched in the whole path. */
  function RecognisedFile(path: string): (r: Option<string>)
    ensures r.Some? <==> (EndsWith(path, ".mp3") || EndsWith(path, ".mp4")) && exists i: nat :: TokenAt(path, i)
    ensures r.Some? ==> exists i: nat :: TokenAt(path, i) && path[i..i + VideoIdLength] == r.value
  {
    if EndsWith(path, ".mp3") || EndsWith(path, ".mp4") then SearchVideoId(path) else None
  }

  /** What `playlist_info.json` next to a file says. */
  datatype PlaylistInfo = PlaylistInfo(title: string, id: string)

  /** The tags mutagen reads: `title`, `artist` and, when present,
      `tracknumber`. */
  datatype FileTags = FileTags(title: string, artist: string, trackNumber: Option<string>)

  /** A process as psutil reports it. */
  datatype Process = Process(pid: int, name: string, openFiles: seq<string>)

  /** A file `check_process` stops at: recognised, with its
      `playlist_info.json` found (`info` is `None` where opening it raises
      `FileNotFoundError`). */
  predicate Usable(path: string, info: string -> Option<PlaylistInfo>) {
    RecognisedFile(path).Some? && info(path).Some?
  }

  /** The elements of `s[1..]` are those of `s` moved down by one. */
  lemma TailIndices<T>(s: seq<T>)
    requires s != []
    ensures forall j :: 1 <= j < |s| ==> s[j] == s[1..][j - 1]
  {
  }

  /** The first usable open file; `FirstUsableFound`, `FirstUsableAt` and
      `FirstUsableNone` say which. */
  function FirstUsable(files: seq<string>, info: string -> Option<PlaylistInfo>): (r: Option<nat>)
    ensures r.Some? ==> r.value < |files|
  {
    if files == [] then None
    else if Usable(files[0], info) then Some(0)
    else
      match FirstUsable(files[1..], info)
      case None => None
      case Some(k) => Some(k + 1)
  }

  /** The file found is usable and no earlier one is. */
  lemma {:induction false} FirstUsableFound(files: seq<string>, info: string -> Option<PlaylistInfo>)
    requires FirstUsable(files, info).Some?
    ensures var k := FirstUsable(files, info).value;
      Usable(files[k], info) && forall j :: 0 <= j < k ==> !Usable(files[j], info)
  {
    if !Usable(files[0], info) {
      FirstUsableFound(files[1..], info);
      TailIndices(files);
    }
  }

  /** A usable file with no usable one before it is the one found. */
  lemma {:induction false} FirstUsableAt(files: seq<string>, info: string -> Option<PlaylistInfo>, i: nat)
    requires i < |files| && Usable(files[i], info)
    requires forall j :: 0 <= j < i ==> !Usable(files[j], info)
    ensures FirstUsable(files, info) == Some(i)
  {
    if i > 0 {
      assert !Usable(files[0], info);
      TailIndices(files);
      FirstUsableAt(files[1..], info, i - 1);
    }
  }

  /** Nothing is found exactly when no file is usable. */
  lemma {:induction false} FirstUsableNone(files: seq<string>, info: string -> Option<PlaylistInfo>)
    ensures FirstUsable(files, info).None? <==> forall j :: 0 <= j < |files| ==> !Usable(files[j], info)
  {
    if files != [] {
      FirstUsableNone(files[1..], info);
      TailIndices(files);
      if FirstUsable(files, info).Some? {
        FirstUsableFound(files, info);
      }
    }
  }

  /** `proc` is a candidate player with a usable open file. */
  predicate Plays(players: Dict<string, Player>, proc: Process, info: string -> Option<PlaylistInfo>) {
    IsCandidatePlayer(players, proc.name) && FirstUsable(proc.openFiles, info).Some?
  }

  /** The first process that is a candidate player with a usable file;
      `FirstPlayerFound`, `FirstPlayerAt` and `FirstPlayerNone` say which. */
  function FirstPlayer(players: Dict<string, Player>, procs: seq<Process>, info: string -> Option<PlaylistInfo>): (r: Option<nat>)
    ensures r.Some? ==> r.value < |procs|
  {
    if procs == [] then None
    else if Plays(players, procs[0], info) then Some(0)
    else
      match FirstPlayer(players, procs[1..], info)
      case None => None
      case Some(k) => Some(k + 1)
  }

  /** The process found plays and no earlier one does. */
  lemma {:induction false} FirstPlayerFound(players: Dict<string, Player>, procs: seq<Process>, info: string -> Option<PlaylistInfo>)
    requires FirstPlayer(players, procs, info).Some?
    ensures var k := FirstPlayer(players, procs, info).value;
      Plays(players, procs[k], info) && forall j :: 0 <= j < k ==> !Plays(players, procs[j], info)
  {
    if !Plays(players, procs[0], info) {
      FirstPlayerFound(players, procs[1..], info);
      TailIndices(procs);
    }
  }

  /** A process that plays with none before it that does is the one found. */
  lemma {:induction false} FirstPlayerAt(players: Dict<string, Player>, procs: seq<Process>, info: string -> Option<PlaylistInfo>, i: nat)
    requires i < |procs| && Plays(players, procs[i], info)
    requires forall j :: 0 <= j < i ==> !Plays(players, procs[j], info)
    ensures FirstPlayer(players, procs, info) == Some(i)
  {
    if i > 0 {
      assert !Plays(players, procs[0], info);
      TailIndices(procs);
      FirstPlayerAt(players, procs[1..], info, i - 1);
    }
  }

  /** Nothing is found exactly when no process plays. */
  lemma {:induction false} FirstPlayerNone(players: Dict<string, Player>, procs: seq<Process>, info: string -> Option<PlaylistInfo>)
    ensures FirstPlayer(players, procs, info).None? <==> forall j :: 0 <= j < |procs| ==> !Plays(players, procs[j], info)
  {
    if procs != [] {
      FirstPlayerNone(players, procs[1..], info);
      TailIndices(procs);
      if FirstPlayer(players, procs, info).Some? {
        FirstPlayerFound(players, procs, info);
      }
    }
  }

  /** The processes before `i + 1` do not play, once `procs[i]` does not. */
  lemma NoPlayerBefore(players: Dict<string, Player>, procs: seq<Process>, info: string -> Option<PlaylistInfo>, i: nat)
    requires i < |procs| && !Plays(players, procs[i], info)
    requires forall j :: 0 <= j < i ==> !Plays(players, procs[j], info)
    ensures forall j :: 0 <= j < i + 1 ==> !Plays(players, procs[j], info)
  {
  }

  // ---------------------------------------------------------------------
  // The fields of RpcRun

  /** The fields of `RpcRun` the presence is built from. */
  datatype Info = Info(playlistId: Option<string>, playlistName: Option<string>, author: Option<string>,
                       trackName: Option<string>, trackNumber: Option<string>, videoId: Option<string>,
                       process: Option<Process>, playerName: Option<string>, playerIcon: Option<string>)

  /** `clear_info` (discord_rpc.py:167-172). */
  function Cleared(st: Info): Info {
    st.(playlistId := None, playlistName := None, author := None, trackName := None, videoId := None)
  }

  datatype CheckOutcome =
    | NoMatch        // no usable open file: `check_process` returns None
    | Matched        // returns True
    | LookupFailed   // the process has no entry in `players`: `player_info["name"]` raises
    | TagsFailed     // an `.mp4` file: `MP4(path, ID3=EasyID3)` raises, as `MP4` takes no `ID3`

  /** The fields set before the tags are read (discord_rpc.py:278-279). */
  function Named(st: Info, pi: PlaylistInfo): Info {
    st.(playlistName := Some(pi.title), playlistId := Some(pi.id))
  }

  /** The fields a usable `.mp3` file `path` of `proc` sets (discord_rpc.py:276-292). */
  function Found(st: Info, proc: Process, path: string, pi: PlaylistInfo, t: FileTags): Info {
    st.(playlistName := Some(pi.title), playlistId := Some(pi.id),
        trackName := Some(t.title), author := Some(t.artist), trackNumber := t.trackNumber,
        videoId := RecognisedFile(path), process := Some(proc))
  }

  /** `check_process(proc)` (discord_rpc.py:268-299) on the fields `st`. */
  function AfterCheck(st: Info, players: Dict<string, Player>, proc: Process, info: string -> Option<PlaylistInfo>,
                      tags: string -> FileTags): (Info, CheckOutcome)
  {
    match FirstUsable(proc.openFiles, info)
    case None => (st, NoMatch)
    case Some(k) =>
      FirstUsableFound(proc.openFiles, info);
      var path := proc.openFiles[k];
      if !EndsWith(path, ".mp3") then (Named(st, info(path).value), TagsFailed)
      else
        var found := Found(st, proc, path, info(path).value, tags(path));
        match PlayerInfo(players, proc.name)
        case None => (found, LookupFailed)
        case Some(p) => (found.(playerName := Some(p.name), playerIcon := Some(p.icon)), Matched)
  }

  /** The check at the first usable file `i`. */
  lemma AfterCheckAt(st: Info, players: Dict<string, Player>, proc: Process, info: string -> Option<PlaylistInfo>,
                     tags: string -> FileTags, i: nat)
    requires i < |proc.openFiles| && Usable(proc.openFiles[i], info)
    requires forall j :: 0 <= j < i ==> !Usable(proc.openFiles[j], info)
    ensures var path := proc.openFiles[i];
      var found := Found(st, proc, path, info(path).value, tags(path));
      AfterCheck(st, players, proc, info, tags) ==
        if !EndsWith(path, ".mp3") then (Named(st, info(path).value), TagsFailed)
        else match PlayerInfo(players, proc.name)
        case None => (found, LookupFailed)
        case Some(p) => (found.(playerName := Some(p.name), playerIcon := Some(p.icon)), Matched)
  {
    FirstUsableAt(proc.openFiles, info, i);
  }

  /** What a check that finds a file leaves. An `.mp4` file raises once
      the playlist name and id are set. For an `.mp3` file the video id is
      the 11-character token of the file, the process is the one checked,
      and the track number is replaced even when the file has none. */
  lemma AfterCheckFound(st: Info, players: Dict<string, Player>, proc: Process, info: string -> Option<PlaylistInfo>, tags: string -> FileTags)
    requires FirstUsable(proc.openFiles, info).Some?
    ensures var (s, r) := AfterCheck(st, players, proc, info, tags);
      var path := proc.openFiles[FirstUsable(proc.openFiles, info).value];
      && r != NoMatch
      && (EndsWith(path, ".mp3") || EndsWith(path, ".mp4")) && info(path).Some?
      && (r == TagsFailed <==> !EndsWith(path, ".mp3"))
      && (r == TagsFailed ==> s == st.(playlistName := Some(info(path).value.title), playlistId := Some(info(path).value.id)))
      && (r == Matched <==> EndsWith(path, ".mp3") && PlayerInfo(players, proc.name).Some?)
      && (r != TagsFailed ==>
            && s.videoId.Some? && |s.videoId.value| == VideoIdLength && AllIdChars(s.videoId.value)
            && s.process == Some(proc) && s.trackNumber == tags(path).trackNumber)
      && (r == LookupFailed ==> s.playerName == st.playerName && s.playerIcon == st.playerIcon)
  {
    FirstUsableFound(proc.openFiles, info);
  }

  /** A check without a usable file changes nothing. */
  lemma AfterCheckNoMatch(st: Info, players: Dict<string, Player>, proc: Process, info: string -> Option<PlaylistInfo>, tags: string -> FileTags)
    ensures AfterCheck(st, players, proc, info, tags).1 == NoMatch <==> FirstUsable(proc.openFiles, info).None?
    ensures AfterCheck(st, players, proc, info, tags).1 == NoMatch ==> AfterCheck(st, players, proc, info, tags).0 == st
  {
  }

  // ---------------------------------------------------------------------
  // The activity payload

  /** `s[:n]`. */
  function Take<T>(s: seq<T>, n: nat): (r: seq<T>)
    ensures |r| == if |s| <= n then |s| else n
    ensures r == s[..|r|]
  {
    if |s| <= n then s else s[..n]
  }

  /** `', '.join(author.split(', ')[:4])` (discord_rpc.py:227). */
  function StateAuthors(author: string): string {
    Join(Take(Split(author, ", "), 4), ", ")
  }

  /** The state line shows a prefix of the author string: its first four
      authors, and the whole string when there are at most four. */
  lemma StateAuthorsPrefix(author: string)
    ensures StartsWith(author, StateAuthors(author))
    ensures |Split(author, ", ")| <= 4 ==> StateAuthors(author) == author
  {
    var parts := Split(author, ", ");
    JoinSplit(author, ", ");
    JoinPrefix(parts, ", ", |Take(parts, 4)|);
  }

  /** `playlist_limit` (discord_rpc.py:216): button text counts emoji
      twice, so names with an emoji are cut shorter. */
  function PlaylistLimit(hasEmoji: bool): nat {
    if hasEmoji then 18 else 25
  }

  /** The label of the playlist button (discord_rpc.py:241). */
  function PlaylistLabel(name: string, hasEmoji: bool): (r: string)
    ensures var t := Take(name, PlaylistLimit(hasEmoji));
      && StartsWith(name, t) && EndsWith(r, t)
      && (r == t <==> |t| > 13)
      && (r != t ==> r == "Playlist: " + t)
      && |r| <= 25
      && (hasEmoji && |t| > 13 ==> |r| <= 18)
  {
    var t := Take(name, PlaylistLimit(hasEmoji));
    if |t| > 13 then t else "Playlist: " + t
  }

  /** `f"{x}"` of an optional string: `None` prints as `None`. */
  function Show(o: Option<string>): string {
    match o
    case None => "None"
    case Some(s) => s
  }

  /** The URL of the "Listen on Youtube" button (discord_rpc.py:238):
      `playlistData` is the JSON object read from `playlist_info.json`. */
  function ListenUrl(videoId: Option<string>, playlistId: Option<string>, playlistData: map<string, string>): (r: string)
    ensures var base := "https://www.youtube.com/watch?v=" + Show(videoId) + "&list=" + Show(playlistId);
      && StartsWith(r, base)
      && (videoId.Some? && videoId.value in playlistData ==> r == base + playlistData[videoId.value])
      && (videoId.None? || videoId.value !in playlistData ==> r == base)
  {
    var extra := if videoId.Some? && videoId.value in playlistData then playlistData[videoId.value] else "";
    "https://www.youtube.com/watch?v=" + Show(videoId) + "&list=" + Show(playlistId) + extra
  }

  /** The `&index=` value (discord_rpc.py:248-251): the number before the
      first `/` minus one, or the raw track number when that is not an int. */
  function TrackIndexText(trackNumber: string): string {
    match ParseInt(Split(trackNumber, "/")[0])
    case Some(k) => IntToString(k - 1)
    case None => trackNumber
  }

  lemma IntToStringNoSlash(i: int)
    ensures '/' !in IntToString(i)
  {
    var s := NatToString(if i < 0 then -i else i);
    assert forall j :: 0 <= j < |s| ==> IsDigit(s[j]);
  }

  /** A track number `k/n` gives the zero-based index `k - 1`. */
  lemma TrackIndexOfFraction(k: int, total: string)
    ensures TrackIndexText(IntToString(k) + "/" + total) == IntToString(k - 1)
  {
    var digits := IntToString(k);
    var tn := digits + "/" + total;
    IntToStringNoSlash(k);
    assert OccursAt(tn, "/", |digits|);
    forall j | 0 <= j < |digits| ensures !OccursAt(tn, "/", j) {
      assert tn[j] == digits[j];
      assert digits[j] in digits;
    }
    assert FindFrom(tn, "/", 0) == Some(|digits|);
    assert tn[..|digits|] == digits;
    assert Split(tn, "/")[0] == digits;
    ParseIntToString(k);
  }

  /** A track number whose part before the first `/` is not an int is used
      as it is. */
  lemma TrackIndexRaw(trackNumber: string)
    requires ParseInt(Split(trackNumber, "/")[0]).None?
    ensures TrackIndexText(trackNumber) == trackNumber
  {
  }

  datatype Button = Button(caption: string, url: string)

  /** The activity dictionary sent to Discord. */
  datatype Activity = Activity(details: Option<string>, state: string, largeImage: string, largeText: string,
                               smallImage: Option<string>, activityType: int, buttons: seq<Button>)

  /** `ActivityType.listening`. */
  const Listening := 2

  /** The payload `start_loop` builds from the fields (discord_rpc.py:216-253);
      `None` where it raises: the playlist name or the author is `None`. */
  function PayloadOf(st: Info, hasEmoji: bool, playlistData: map<string, string>): (r: Option<Activity>)
    ensures r.Some? <==> st.playlistName.Some? && st.author.Some?
    ensures r.Some? ==>
      && r.value.state == "By: " + StateAuthors(st.author.value)
      && r.value.details == st.trackName
      && r.value.largeImage == "https://img.youtube.com/vi/" + Show(st.videoId) + "/default.jpg"
      && |r.value.buttons| == 2
      && r.value.buttons[1] == Button(PlaylistLabel(st.playlistName.value, hasEmoji),
                                      "https://www.youtube.com/playlist?list=" + Show(st.playlistId))
  {
    if st.playlistName.None? || st.author.None? then None
    else
      var listen := Button("Listen on Youtube", ListenUrl(st.videoId, st.playlistId, playlistData));
      var listen' := if st.trackNumber.Some? && st.trackNumber.value != "" then
          listen.(url := listen.url + "&index=" + TrackIndexText(st.trackNumber.value),
                  caption := listen.caption + " (" + st.trackNumber.value + ")")
        else listen;
      Some(Activity(st.trackName, "By: " + StateAuthors(st.author.value),
                    "https://img.youtube.com/vi/" + Show(st.videoId) + "/default.jpg",
                    "Via: " + Show(st.playerName), st.playerIcon, Listening,
                    [listen', Button(PlaylistLabel(st.playlistName.value, hasEmoji),
                                     "https://www.youtube.com/playlist?list=" + Show(st.playlistId))]))
  }

  /** The listen button: its URL gains `&index={k-1}` and its label
      ` (k/n)` for a track number `k/n`. */
  lemma PayloadListenButton(st: Info, hasEmoji: bool, playlistData: map<string, string>, k: int, total: string)
    requires st.playlistName.Some? && st.author.Some?
    requires st.trackNumber == Some(IntToString(k) + "/" + total)
    ensures PayloadOf(st, hasEmoji, playlistData).value.buttons[0] ==
      Button("Listen on Youtube" + " (" + st.trackNumber.value + ")",
             ListenUrl(st.videoId, st.playlistId, playlistData) + "&index=" + IntToString(k - 1))
  {
    TrackIndexOfFraction(k, total);
    assert st.trackNumber.value != "";
  }

  lemma PayloadWithoutTrackNumber(st: Info, hasEmoji: bool, playlistData: map<string, string>)
    requires st.playlistName.Some? && st.author.Some?
    requires st.trackNumber.None? || st.trackNumber == Some("")
    ensures PayloadOf(st, hasEmoji, playlistData).value.buttons[0] ==
      Button("Listen on Youtube", ListenUrl(st.videoId, st.playlistId, playlistData))
  {
  }

  /** After `clear_info` no payload can be built until a file is found:
      the author is gone. */
  lemma ClearedHasNoPayload(st: Info, hasEmoji: bool, playlistData: map<string, string>)
    ensures PayloadOf(Cleared(st), hasEmoji, playlistData).None?
  {
  }

  /** A check that reads the tags makes the payload buildable; one that
      raises on an `.mp4` file does so only if an author was already set. */
  lemma CheckedHasPayload(st: Info, players: Dict<string, Player>, proc: Process, info: string -> Option<PlaylistInfo>,
                          tags: string -> FileTags, hasEmoji: bool, playlistData: map<string, string>)
    requires FirstUsable(proc.openFiles, info).Some?
    ensures var (s, r) := AfterCheck(st, players, proc, info, tags);
      PayloadOf(s, hasEmoji, playlistData).Some? <==> r != TagsFailed || st.author.Some?
  {
  }

  // ---------------------------------------------------------------------
  // The objects

  /** `RpcRun` without its Discord connection and its endless loop. */
  class RpcRun {
    /** `players`. */
    const players: Dict<string, Player>
    var playlistId: Option<string>
    var playlistName: Option<string>
    var process: Option<Process>
    var author: Option<string>
    var trackName: Option<string>
    var trackNumber: Option<string>
    var videoId: Option<string>
    var playerName: Option<string>
    var playerIcon: Option<string>

    /** The fields as `__init__` sets them (discord_rpc.py:153-163). */
    constructor()
      ensures players == PlayerTable
      ensures State() == Info(None, None, None, None, None, None, None, None, None)
    {
      players := PlayerTable;
      playlistId, playlistName, process, author := None, None, None, None;
      trackName, trackNumber, videoId, playerName, playerIcon := None, None, None, None, None;
    }

    function State(): Info
      reads this
    {
      Info(playlistId, playlistName, author, trackName, trackNumber, videoId, process, playerName, playerIcon)
    }

    /** `clear_info` (discord_rpc.py:167-177): five fields reset, the track
        number, the process and the player kept. */
    method ClearInfo()
      modifies this
      ensures State() == Cleared(old(State()))
    {
      playlistId := None;
      playlistName := None;
      author := None;
      trackName := None;
      videoId := None;
    }

    /** `check_process(proc)` (discord_rpc.py:268-299): the open files in
        order; the first usable one sets the fields. */
    method CheckProcess(proc: Process, info: string -> Option<PlaylistInfo>, tags: string -> FileTags)
      returns (r: CheckOutcome)
      modifies this
      ensures (State(), r) == AfterCheck(old(State()), players, proc, info, tags)
    {
      var i := 0;
      while i < |proc.openFiles|
        invariant 0 <= i <= |proc.openFiles|
        invariant forall j :: 0 <= j < i ==> !Usable(proc.openFiles[j], info)
        invariant State() == old(State())
      {
        var path := proc.openFiles[i];
        var ytId := RecognisedFile(path);
        if ytId.Some? {
          var playlistInfo := info(path);
          if playlistInfo.Some? {
            AfterCheckAt(old(State()), players, proc, info, tags, i);
            playlistName := Some(playlistInfo.value.title);
            playlistId := Some(playlistInfo.value.id);
            if !EndsWith(path, ".mp3") {
              return TagsFailed;
            }
            var t := tags(path);
            trackName := Some(t.title);
            author := Some(t.artist);
            trackNumber := t.trackNumber;
            videoId := ytId;
            process := Some(proc);
            assert State() == Found(old(State()), proc, path, playlistInfo.value, t);
            var player := PlayerInfo(players, proc.name);
            if player.None? {
              return LookupFailed;
            }
            playerName := Some(player.value.name);
            playerIcon := Some(player.value.icon);
            return Matched;
          }
        }
        i := i + 1;
      }
      FirstUsableNone(proc.openFiles, info);
      return NoMatch;
    }

    /** `get_process` (discord_rpc.py:301-312): the first candidate player
        whose check succeeds; `failed` where the check raises (then the
        exception reaches the `except` of `start_loop`, discord_rpc.py:262-264). */
    method GetProcess(procs: seq<Process>, info: string -> Option<PlaylistInfo>, tags: string -> FileTags)
      returns (found: Option<Process>, failed: bool)
      modifies this
      ensures FirstPlayer(players, procs, info).None? ==>
                !failed && found.None? && State() == old(State()).(process := None)
      ensures FirstPlayer(players, procs, info).Some? ==>
                var p := procs[FirstPlayer(players, procs, info).value];
                var (s, r) := AfterCheck(old(State()), players, p, info, tags);
                State() == s && (failed <==> r == LookupFailed || r == TagsFailed) &&
                found == (if r == Matched then Some(p) else None)
    {
      var i := 0;
      while i < |procs|
        invariant 0 <= i <= |procs|
        invariant forall j :: 0 <= j < i ==> !Plays(players, procs[j], info)
        invariant State() == old(State())
      {
        var proc := procs[i];
        if IsCandidatePlayer(players, proc.name) {
          AfterCheckNoMatch(State(), players, proc, info, tags);
          var r := CheckProcess(proc, info, tags);
          if r != NoMatch {
            FirstPlayerAt(players, procs, info, i);
            return if r == Matched then Some(proc) else None, r != Matched;
          }
        }
        NoPlayerBefore(players, procs, info, i);
        i := i + 1;
      }
      FirstPlayerNone(players, procs, info);
      process := None;
      return None, false;
    }

    /** The payload of one pass of `start_loop` (discord_rpc.py:216-253):
        built, then its first button extended with the track number. */
    method Payload(hasEmoji: bool, playlistData: map<string, string>) returns (p: Option<Activity>)
      ensures p == PayloadOf(State(), hasEmoji, playlistData)
    {
      if playlistName.None? || author.None? {
        return None;
      }
      var listen := Button("Listen on Youtube", ListenUrl(videoId, playlistId, playlistData));
      var playlist := Button(PlaylistLabel(playlistName.value, hasEmoji),
                             "https://www.youtube.com/playlist?list=" + Show(playlistId));
      var payload := Activity(trackName, "By: " + StateAuthors(author.value),
                              "https://img.youtube.com/vi/" + Show(videoId) + "/default.jpg",
                              "Via: " + Show(playerName), playerIcon, Listening, [listen, playlist]);
      if trackNumber.Some? && trackNumber.value != "" {
        var index := TrackIndexText(trackNumber.value);
        var first := payload.buttons[0].(url := payload.buttons[0].url + "&index=" + index);
        payload := payload.(buttons := payload.buttons[0 := first]);
        first := payload.buttons[0].(caption := payload.buttons[0].caption + " (" + trackNumber.value + ")");
        payload := payload.(buttons := payload.buttons[0 := first]);
        assert payload.buttons == [first, playlist];
      }
      return Some(payload);
    }
  }

  /** `MyDiscordIPC` reduced to the activity it remembers; `None` stands
      for the emptied `last_data`. */
  class DiscordClient {
    var lastData: Option<Activity>

    constructor()
      ensures lastData == None
    {
      lastData := None;
    }

    /** `update_activity(activity)` (discord_rpc.py:109-120): `delivered`
        says whether the underlying update went through; `raised` is the
        exception passed on. */
    method UpdateActivity(activity: Option<Activity>, delivered: bool) returns (raised: bool)
      modifies this
      ensures raised == !delivered
      ensures lastData == if delivered then activity else None
    {
      if activity.Some? {
        lastData := activity;
      } else {
        lastData := None;
      }
      if !delivered {
        lastData := None;
        return true;
      }
      return false;
    }
  }
}
