/** The classification loop of `download_playlist` (main.py:303-341) as a
    specification: one `Step` per entry of `new_tracks`, folded by `Run`.
    `plan` records what became of each track; the source keeps no such list,
    it is the specification's account of the loop's branches. */
module SyncLoop {
  import opened Wrappers
  import opened Strings
  import opened OrderedDicts
  import opened Tracks
  import opened Manifest
  import opened Filenames
  import opened FileSystem

  /** `error_messages` (main.py:49-52). */
  function ErrorMessage(title: string): Option<string> {
    if title == "[Deleted video]" then Some("Vídeo deletado")
    else if title == "[Private video]" then Some("Vídeo privado")
    else None
  }

  predicate IsNormal(t: Track) {
    ErrorMessage(t.name).None?
  }

  /** The directories and names fixed for one playlist. */
  datatype Context = Context(outDir: string, oldDir: string, syncedDir: string,
                             playlistId: string, playlistName: string, ext: string)

  /** `os.path.join(out_dir, "./.synced_playlist_data/deleted")` with the
      POSIX separator (main.py:173). */
  function OldDir(outDir: string): string {
    var tail := "./" + DataFolder + "/deleted";
    if outDir == "" then tail
    else if EndsWith(outDir, "/") then outDir + tail
    else outDir + "/" + tail
  }

  /** The context `download_playlist` sets up for one playlist: the
      extension is "mp3" for audio and "mp4" for video (main.py:178, 194),
      the name is the sanitised title (main.py:241-242) and the playlist
      folder is `{out_dir}/.synced_playlist_data/{playlist_id}` (main.py:262). */
  function PlaylistContext(outDir: string, onlyAudio: bool, data: PlaylistData): Context {
    Context(outDir, OldDir(outDir), outDir + "/" + DataFolder + "/" + data.id, data.id,
            SanitizeFilename(data.title), if onlyAudio then "mp3" else "mp4")
  }

  /** The playlist folder sits in `.synced_playlist_data` under `out_dir`. */
  predicate Standard(c: Context) {
    c.syncedDir == c.outDir + "/" + DataFolder + "/" + c.playlistId
  }

  /** `{out_dir}/.synced_playlist_data/{id}.{ext}`: where older versions kept files. */
  function StagedPath(c: Context, id: string): Path {
    Path(c.outDir + "/" + DataFolder, id + "." + c.ext)
  }

  /** `{synced_dir}/{id}.{ext}`: the playlist folder. */
  function SyncedPath(c: Context, id: string): Path {
    Path(c.syncedDir, id + "." + c.ext)
  }

  /** `{old_dir}/{id}.{ext}`: the folder of deleted files. */
  function OldPath(c: Context, id: string): Path {
    Path(c.oldDir, id + "." + c.ext)
  }

  /** One element of `ytdl_args_list` (the yt-dlp options left out). */
  datatype Job = Job(name: string, counter: int, id: string, playlistDir: string, outDir: string,
                     index: int, ext: string, playlistName: string, playlistId: string)

  /** What the loop did with one track. */
  datatype Disposition =
    | Reused(id: string, index: int, found: Path)  // deleted/private, old file reused
    | Missing(id: string)                            // deleted/private, nothing to reuse
    | Kept(id: string, index: int, staged: bool)     // file present (moved in when staged)
    | Queued(id: string, index: int)                 // appended to the download list

  /** The loop's variables and the module state it updates. */
  datatype Loop = Loop(index: int, counter: int, existing: int, totalEntries: int,
                       m3u: M3uData, jobs: seq<Job>, trackIds: set<string>,
                       files: set<Path>, plan: seq<Disposition>)

  /** The state before the first track. */
  function Start(m3u: M3uData, trackIds: set<string>, files: set<Path>, totalEntries: int): Loop {
    Loop(0, 0, 0, totalEntries, m3u, [], trackIds, files, [])
  }

  /** The first of `old_dir`, `synced_dir` that holds the file (main.py:310). */
  function ReusableFile(c: Context, files: set<Path>, id: string): Option<Path> {
    if OldPath(c, id) in files then Some(OldPath(c, id))
    else if SyncedPath(c, id) in files then Some(SyncedPath(c, id))
    else None
  }

  /** A deleted or private track with no file to reuse: only a notice. */
  function MissingStep(st: Loop, id: string): (r: Loop)
    ensures r.index == st.index && r.counter == st.counter && r.jobs == st.jobs
    ensures r.existing == st.existing && r.m3u == st.m3u && r.plan == st.plan + [Missing(id)]
    ensures r.totalEntries == st.totalEntries - 1 && r.trackIds == st.trackIds + {id} && r.files == st.files
  {
    st.(totalEntries := st.totalEntries - 1, trackIds := st.trackIds + {id}, plan := st.plan + [Missing(id)])
  }

  /** A deleted or private track whose old file `found` is listed again at
      the current index. */
  function ReusedStep(c: Context, tags: Path -> AudioTag, st: Loop, id: string, message: string, found: Path): (r: Loop)
    ensures r.index == st.index && r.counter == st.counter && r.jobs == st.jobs
    ensures r.existing == st.existing + 1 && r.plan == st.plan + [Reused(id, st.index, found)]
    ensures Keys(r.m3u) == if st.index in Keys(st.m3u) then Keys(st.m3u) else Keys(st.m3u) + [st.index]
    ensures Get(r.m3u, st.index) == Some(ReusedLine(message, tags(found), c.oldDir, id, c.ext))
    ensures r.totalEntries == st.totalEntries - 1 && r.trackIds == st.trackIds + {id} && r.files == st.files
  {
    st.(totalEntries := st.totalEntries - 1, existing := st.existing + 1,
        m3u := Put(st.m3u, st.index, ReusedLine(message, tags(found), c.oldDir, id, c.ext)),
        trackIds := st.trackIds + {id}, plan := st.plan + [Reused(id, st.index, found)])
  }

  /** A track already on disk; a staged file moves to the playlist folder. */
  function KeptStep(c: Context, st: Loop, id: string, t: Track, staged: bool): (r: Loop)
    ensures r.index == st.index + 1 && r.counter == st.counter && r.jobs == st.jobs
    ensures r.existing == st.existing + 1 && r.plan == st.plan + [Kept(id, st.index + 1, staged)]
    ensures Keys(r.m3u) == if r.index in Keys(st.m3u) then Keys(st.m3u) else Keys(st.m3u) + [r.index]
    ensures Get(r.m3u, r.index) == Some(KeptLine(t, c.playlistId, id, c.ext))
    ensures r.totalEntries == st.totalEntries - 1 && r.trackIds == st.trackIds + {id}
    ensures r.files == if staged then st.files - {StagedPath(c, id)} + {SyncedPath(c, id)} else st.files
  {
    st.(index := st.index + 1, totalEntries := st.totalEntries - 1, existing := st.existing + 1,
        m3u := Put(st.m3u, st.index + 1, KeptLine(t, c.playlistId, id, c.ext)), trackIds := st.trackIds + {id},
        files := if staged then st.files - {StagedPath(c, id)} + {SyncedPath(c, id)} else st.files,
        plan := st.plan + [Kept(id, st.index + 1, staged)])
  }

  /** A track to download: one more job. */
  function QueuedStep(c: Context, st: Loop, id: string, t: Track): (r: Loop)
    ensures r.index == st.index + 1 && r.counter == st.counter + 1 && |r.jobs| == |st.jobs| + 1
    ensures r.jobs == st.jobs + [r.jobs[|st.jobs|]]
    ensures r.jobs[|st.jobs|].id == id && r.jobs[|st.jobs|].counter == r.counter && r.jobs[|st.jobs|].index == r.index
    ensures r.existing == st.existing && r.m3u == st.m3u && r.plan == st.plan + [Queued(id, st.index + 1)]
    ensures r.totalEntries == st.totalEntries && r.trackIds == st.trackIds + {id} && r.files == st.files
    ensures r.jobs[|st.jobs|].playlistDir == c.syncedDir && r.jobs[|st.jobs|].outDir == c.outDir
    ensures r.jobs[|st.jobs|].ext == c.ext && r.jobs[|st.jobs|].name == t.name
  {
    st.(index := st.index + 1, counter := st.counter + 1,
        jobs := st.jobs + [Job(t.name, st.counter + 1, id, c.syncedDir, c.outDir, st.index + 1, c.ext,
                               c.playlistName, c.playlistId)],
        trackIds := st.trackIds + {id}, plan := st.plan + [Queued(id, st.index + 1)])
  }

  /** One iteration of the loop body; `tags` gives the tags mutagen reads. */
  function Step(c: Context, tags: Path -> AudioTag, st: Loop, id: string, t: Track): (r: Loop)
    ensures r.trackIds == st.trackIds + {id}
    ensures r.index == if IsNormal(t) then st.index + 1 else st.index
    ensures |r.plan| == |st.plan| + 1 && r.plan[..|st.plan|] == st.plan
    ensures r.plan[|st.plan|].id == id && (HasSlot(r.plan[|st.plan|]) <==> IsNormal(t))
  {
    match ErrorMessage(t.name)
    case Some(message) =>
      (match ReusableFile(c, st.files, id)
       case None => MissingStep(st, id)
       case Some(found) => ReusedStep(c, tags, st, id, message, found))
    case None =>
      var staged := StagedPath(c, id) in st.files;
      if staged || SyncedPath(c, id) in st.files then KeptStep(c, st, id, t, staged)
      else QueuedStep(c, st, id, t)
  }

  // Which branch of `Step` a track takes.

  lemma StepMissing(c: Context, tags: Path -> AudioTag, st: Loop, id: string, t: Track)
    requires !IsNormal(t) && ReusableFile(c, st.files, id).None?
    ensures Step(c, tags, st, id, t) == MissingStep(st, id)
  {
  }

  lemma StepReused(c: Context, tags: Path -> AudioTag, st: Loop, id: string, t: Track, found: Path)
    requires !IsNormal(t) && ReusableFile(c, st.files, id) == Some(found)
    ensures Step(c, tags, st, id, t) == ReusedStep(c, tags, st, id, ErrorMessage(t.name).value, found)
  {
  }

  lemma StepKept(c: Context, tags: Path -> AudioTag, st: Loop, id: string, t: Track)
    requires IsNormal(t) && (StagedPath(c, id) in st.files || SyncedPath(c, id) in st.files)
    ensures Step(c, tags, st, id, t) == KeptStep(c, st, id, t, StagedPath(c, id) in st.files)
  {
  }

  lemma StepQueued(c: Context, tags: Path -> AudioTag, st: Loop, id: string, t: Track)
    requires IsNormal(t) && StagedPath(c, id) !in st.files && SyncedPath(c, id) !in st.files
    ensures Step(c, tags, st, id, t) == QueuedStep(c, st, id, t)
  {
  }

  /** The loop over the first |tracks| entries of `new_tracks`. */
  function Run(c: Context, tags: Path -> AudioTag, st: Loop, tracks: Dict<string, Track>): Loop
    decreases |tracks|
  {
    if tracks == [] then st
    else
      var n := |tracks| - 1;
      Step(c, tags, Run(c, tags, st, tracks[..n]), tracks[n].0, tracks[n].1)
  }

  /** `Run` over one more entry is one more `Step`. */
  lemma RunSnoc(c: Context, tags: Path -> AudioTag, st: Loop, tracks: Dict<string, Track>, i: nat)
    requires i < |tracks|
    ensures Run(c, tags, st, tracks[..i + 1]) == Step(c, tags, Run(c, tags, st, tracks[..i]), tracks[i].0, tracks[i].1)
  {
    assert tracks[..i + 1][..i] == tracks[..i];
  }

  // ---------------------------------------------------------------------
  // What the loop keeps true

  /** The number of tracks that are neither deleted nor private. */
  function NormalCount(tracks: Dict<string, Track>): nat {
    if tracks == [] then 0
    else NormalCount(tracks[..|tracks| - 1]) + (if IsNormal(tracks[|tracks| - 1].1) then 1 else 0)
  }

  /** (id, index) of the queued tracks, in order. */
  function QueuedSlots(plan: seq<Disposition>): seq<(string, int)> {
    if plan == [] then []
    else
      var d := plan[|plan| - 1];
      QueuedSlots(plan[..|plan| - 1]) + (if d.Queued? then [(d.id, d.index)] else [])
  }

  /** (id, index) of the download jobs, in order. */
  function JobSlots(jobs: seq<Job>): seq<(string, int)> {
    if jobs == [] then [] else JobSlots(jobs[..|jobs| - 1]) + [(jobs[|jobs| - 1].id, jobs[|jobs| - 1].index)]
  }

  /** The number of tracks that got a manifest line from the loop. */
  function ListedCount(plan: seq<Disposition>): nat {
    if plan == [] then 0
    else ListedCount(plan[..|plan| - 1]) + (if plan[|plan| - 1].Kept? || plan[|plan| - 1].Reused? then 1 else 0)
  }

  predicate HasSlot(d: Disposition) {
    d.Kept? || d.Queued?
  }

  /** The loop invariant:
      - the download counters run 1..k and `counter` is k;
      - the jobs are exactly the queued tracks, in order, with their slots;
      - `existing` counts the kept and reused tracks;
      - every kept or reused track's slot is a key of `m3u_data`;
      - slots of present and queued tracks never pass `index`, job slots
        strictly increase, and no job shares its slot with a kept track. */
  predicate Inv(st: Loop) {
    && JobsNumbered(st.jobs, st.counter, st.index)
    && JobSlots(st.jobs) == QueuedSlots(st.plan)
    && st.existing == ListedCount(st.plan)
    && ListedInManifest(st.plan, st.m3u)
    && SlotsBounded(st.plan, st.index)
    && KeptNotQueued(st.jobs, st.plan)
  }

  predicate JobsNumbered(jobs: seq<Job>, counter: int, index: int) {
    && counter == |jobs|
    && (forall j :: 0 <= j < |jobs| ==> jobs[j].counter == j + 1)
    && (forall j :: 0 <= j < |jobs| ==> 1 <= jobs[j].index <= index)
    && (forall i, j :: 0 <= i < j < |jobs| ==> jobs[i].index < jobs[j].index)
  }

  predicate ListedInManifest(plan: seq<Disposition>, m3u: M3uData) {
    forall p :: 0 <= p < |plan| && (plan[p].Kept? || plan[p].Reused?) ==> plan[p].index in Keys(m3u)
  }

  predicate SlotsBounded(plan: seq<Disposition>, index: int) {
    forall p :: 0 <= p < |plan| && HasSlot(plan[p]) ==> 1 <= plan[p].index <= index
  }

  predicate KeptNotQueued(jobs: seq<Job>, plan: seq<Disposition>) {
    forall j, p :: 0 <= j < |jobs| && 0 <= p < |plan| && plan[p].Kept? ==> jobs[j].index != plan[p].index
  }

  lemma StartInv(m3u: M3uData, trackIds: set<string>, files: set<Path>, total: int)
    ensures Inv(Start(m3u, trackIds, files, total))
  {
  }

  lemma PlanAppend(plan: seq<Disposition>, d: Disposition)
    ensures QueuedSlots(plan + [d]) == QueuedSlots(plan) + (if d.Queued? then [(d.id, d.index)] else [])
    ensures ListedCount(plan + [d]) == ListedCount(plan) + (if d.Kept? || d.Reused? then 1 else 0)
  {
    assert (plan + [d])[..|plan|] == plan;
  }

  lemma ListedGrow(plan: seq<Disposition>, d: Disposition, m: M3uData, m': M3uData)
    requires ListedInManifest(plan, m)
    requires forall x :: x in Keys(m) ==> x in Keys(m')
    requires d.Kept? || d.Reused? ==> d.index in Keys(m')
    ensures ListedInManifest(plan + [d], m')
  {
    assert forall p :: 0 <= p < |plan| ==> (plan + [d])[p] == plan[p];
  }

  lemma SlotsGrow(plan: seq<Disposition>, d: Disposition, index: int, index': int)
    requires SlotsBounded(plan, index) && index <= index'
    requires HasSlot(d) ==> 1 <= d.index <= index'
    ensures SlotsBounded(plan + [d], index')
  {
    assert forall p :: 0 <= p < |plan| ==> (plan + [d])[p] == plan[p];
  }

  lemma KeptNotQueuedPlan(jobs: seq<Job>, plan: seq<Disposition>, d: Disposition)
    requires KeptNotQueued(jobs, plan)
    requires d.Kept? ==> forall j :: 0 <= j < |jobs| ==> jobs[j].index < d.index
    ensures KeptNotQueued(jobs, plan + [d])
  {
    assert forall p :: 0 <= p < |plan| ==> (plan + [d])[p] == plan[p];
  }

  lemma JobsNumberedGrow(jobs: seq<Job>, counter: int, index: int, index': int)
    requires JobsNumbered(jobs, counter, index) && index <= index'
    ensures JobsNumbered(jobs, counter, index')
  {
  }

  /** What `Put`'s key list says about the keys already present. */
  lemma KeysGrow(m: M3uData, m': M3uData, k: int)
    requires Keys(m') == if k in Keys(m) then Keys(m) else Keys(m) + [k]
    ensures k in Keys(m') && forall x :: x in Keys(m) ==> x in Keys(m')
  {
  }

  lemma KeptNotQueuedJob(jobs: seq<Job>, plan: seq<Disposition>, job: Job, index: int)
    requires KeptNotQueued(jobs, plan) && SlotsBounded(plan, index) && index < job.index
    ensures KeptNotQueued(jobs + [job], plan)
  {
    assert forall j :: 0 <= j < |jobs| ==> (jobs + [job])[j] == jobs[j];
  }

  lemma JobsAppend(jobs: seq<Job>, counter: int, index: int, job: Job)
    requires JobsNumbered(jobs, counter, index) && index >= 0
    requires job.counter == counter + 1 && job.index == index + 1
    ensures JobsNumbered(jobs + [job], counter + 1, index + 1)
    ensures JobSlots(jobs + [job]) == JobSlots(jobs) + [(job.id, job.index)]
  {
    assert (jobs + [job])[..|jobs|] == jobs;
  }

  lemma StepKeptInv(st: Loop, s: Loop, id: string, staged: bool)
    requires Inv(st) && st.index >= 0
    requires s.index == st.index + 1 && s.counter == st.counter && s.jobs == st.jobs
    requires s.existing == st.existing + 1 && s.plan == st.plan + [Kept(id, st.index + 1, staged)]
    requires Keys(s.m3u) == if s.index in Keys(st.m3u) then Keys(st.m3u) else Keys(st.m3u) + [s.index]
    ensures Inv(s)
  {
    var d := Kept(id, st.index + 1, staged);
    JobsNumberedGrow(st.jobs, st.counter, st.index, s.index);
    KeysGrow(st.m3u, s.m3u, s.index);
    PlanAppend(st.plan, d);
    ListedGrow(st.plan, d, st.m3u, s.m3u);
    SlotsGrow(st.plan, d, st.index, s.index);
    KeptNotQueuedPlan(st.jobs, st.plan, d);
  }

  lemma StepQueuedInv(st: Loop, s: Loop, job: Job)
    requires Inv(st) && st.index >= 0
    requires s.index == st.index + 1 && s.counter == st.counter + 1 && s.jobs == st.jobs + [job]
    requires s.existing == st.existing && s.m3u == st.m3u
    requires s.plan == st.plan + [Queued(job.id, st.index + 1)]
    requires job.counter == st.counter + 1 && job.index == st.index + 1
    ensures Inv(s)
  {
    var d := Queued(job.id, st.index + 1);
    JobsAppend(st.jobs, st.counter, st.index, job);
    PlanAppend(st.plan, d);
    ListedGrow(st.plan, d, st.m3u, s.m3u);
    SlotsGrow(st.plan, d, st.index, s.index);
    KeptNotQueuedJob(st.jobs, st.plan, job, st.index);
    KeptNotQueuedPlan(s.jobs, st.plan, d);
  }

  lemma StepReusedInv(st: Loop, s: Loop, id: string, found: Path)
    requires Inv(st) && st.index >= 0
    requires s.index == st.index && s.counter == st.counter && s.jobs == st.jobs
    requires s.existing == st.existing + 1 && s.plan == st.plan + [Reused(id, st.index, found)]
    requires Keys(s.m3u) == if st.index in Keys(st.m3u) then Keys(st.m3u) else Keys(st.m3u) + [st.index]
    ensures Inv(s)
  {
    var d := Reused(id, st.index, found);
    KeysGrow(st.m3u, s.m3u, st.index);
    PlanAppend(st.plan, d);
    ListedGrow(st.plan, d, st.m3u, s.m3u);
    SlotsGrow(st.plan, d, st.index, s.index);
    KeptNotQueuedPlan(st.jobs, st.plan, d);
  }

  lemma StepMissingInv(st: Loop, s: Loop, id: string)
    requires Inv(st) && st.index >= 0
    requires s.index == st.index && s.counter == st.counter && s.jobs == st.jobs
    requires s.existing == st.existing && s.m3u == st.m3u && s.plan == st.plan + [Missing(id)]
    ensures Inv(s)
  {
    var d := Missing(id);
    PlanAppend(st.plan, d);
    ListedGrow(st.plan, d, st.m3u, s.m3u);
    SlotsGrow(st.plan, d, st.index, s.index);
    KeptNotQueuedPlan(st.jobs, st.plan, d);
  }

  /** One iteration keeps the invariant. */
  lemma StepInv(c: Context, tags: Path -> AudioTag, st: Loop, id: string, t: Track)
    requires Inv(st) && st.index >= 0
    ensures Inv(Step(c, tags, st, id, t))
  {
    if !IsNormal(t) {
      ErrorStepInv(c, tags, st, id, t);
    } else if StagedPath(c, id) in st.files || SyncedPath(c, id) in st.files {
      KeptStepInv(c, tags, st, id, t);
    } else {
      QueuedStepInv(c, tags, st, id, t);
    }
  }

  lemma ErrorStepInv(c: Context, tags: Path -> AudioTag, st: Loop, id: string, t: Track)
    requires Inv(st) && st.index >= 0 && !IsNormal(t)
    ensures Inv(Step(c, tags, st, id, t))
  {
    match ReusableFile(c, st.files, id) {
      case None => StepMissingInv(st, MissingStep(st, id), id);
      case Some(found) =>
        StepReusedInv(st, ReusedStep(c, tags, st, id, ErrorMessage(t.name).value, found), id, found);
    }
  }

  lemma KeptStepInv(c: Context, tags: Path -> AudioTag, st: Loop, id: string, t: Track)
    requires Inv(st) && st.index >= 0 && IsNormal(t)
    requires StagedPath(c, id) in st.files || SyncedPath(c, id) in st.files
    ensures Inv(Step(c, tags, st, id, t))
  {
    StepKeptInv(st, KeptStep(c, st, id, t, StagedPath(c, id) in st.files), id, StagedPath(c, id) in st.files);
  }

  lemma QueuedStepInv(c: Context, tags: Path -> AudioTag, st: Loop, id: string, t: Track)
    requires Inv(st) && st.index >= 0 && IsNormal(t)
    requires StagedPath(c, id) !in st.files && SyncedPath(c, id) !in st.files
    ensures Inv(Step(c, tags, st, id, t))
  {
    var s := QueuedStep(c, st, id, t);
    StepQueuedInv(st, s, s.jobs[|st.jobs|]);
  }

  /** The invariant holds after any number of iterations. */
  lemma {:induction false} RunInv(c: Context, tags: Path -> AudioTag, st: Loop, tracks: Dict<string, Track>)
    requires Inv(st) && st.index >= 0
    ensures Inv(Run(c, tags, st, tracks)) && Run(c, tags, st, tracks).index >= st.index
    decreases |tracks|
  {
    if tracks != [] {
      var n := |tracks| - 1;
      RunInv(c, tags, st, tracks[..n]);
      StepInv(c, tags, Run(c, tags, st, tracks[..n]), tracks[n].0, tracks[n].1);
    }
  }

  /** `index` grows by one per track that is neither deleted nor private. */
  lemma {:induction false} RunIndex(c: Context, tags: Path -> AudioTag, st: Loop, tracks: Dict<string, Track>)
    ensures Run(c, tags, st, tracks).index == st.index + NormalCount(tracks)
    decreases |tracks|
  {
    if tracks != [] {
      RunIndex(c, tags, st, tracks[..|tracks| - 1]);
    }
  }

  /** Every id of `new_tracks` is added to `track_ids`, and nothing else. */
  lemma {:induction false} RunTrackIds(c: Context, tags: Path -> AudioTag, st: Loop, tracks: Dict<string, Track>)
    ensures Run(c, tags, st, tracks).trackIds == st.trackIds + (set k | k in Keys(tracks))
    decreases |tracks|
  {
    if tracks != [] {
      var n := |tracks| - 1;
      RunTrackIds(c, tags, st, tracks[..n]);
      RunLastTrackId(c, tags, st, tracks);
      SplitLast(tracks);
      KeySetSnoc(tracks[..n], tracks[n]);
    }
  }

  lemma RunLastTrackId(c: Context, tags: Path -> AudioTag, st: Loop, tracks: Dict<string, Track>)
    requires tracks != []
    ensures Run(c, tags, st, tracks).trackIds
         == Run(c, tags, st, tracks[..|tracks| - 1]).trackIds + {tracks[|tracks| - 1].0}
  {
  }

  lemma KeySetSnoc(pre: Dict<string, Track>, last: (string, Track))
    ensures (set k | k in Keys(pre + [last])) == (set k | k in Keys(pre)) + {last.0}
  {
    KeysAppend(pre, [last]);
    assert Keys([last]) == [last.0];
    var ks := Keys(pre + [last]);
    assert forall k :: k in ks <==> k in Keys(pre) || k == last.0;
  }


  /** `plan` is `base` followed by one disposition per entry of `tracks`,
      in order: for that track, with a slot exactly when the track is
      neither deleted nor private. */
  predicate PlanFor(base: seq<Disposition>, plan: seq<Disposition>, tracks: Dict<string, Track>) {
    && |plan| == |base| + |tracks|
    && plan[..|base|] == base
    && forall k :: 0 <= k < |tracks| ==>
         plan[|base| + k].id == tracks[k].0 && (HasSlot(plan[|base| + k]) <==> IsNormal(tracks[k].1))
  }

  /** Each track gets exactly one disposition, in order: a track that is
      neither deleted nor private is kept or queued (never both), a deleted
      or private one is reused or missing. */
  lemma {:induction false} RunPlan(c: Context, tags: Path -> AudioTag, st: Loop, tracks: Dict<string, Track>)
    ensures PlanFor(st.plan, Run(c, tags, st, tracks).plan, tracks)
    decreases |tracks|
  {
    if tracks != [] {
      var n := |tracks| - 1;
      var pre := Run(c, tags, st, tracks[..n]);
      RunPlan(c, tags, st, tracks[..n]);
      PlanSnoc(st.plan, pre.plan, Run(c, tags, st, tracks).plan, tracks);
    }
  }

  /** `PlanFor` carried over one more disposition. */
  lemma PlanSnoc(base: seq<Disposition>, pre: seq<Disposition>, plan: seq<Disposition>, tracks: Dict<string, Track>)
    requires tracks != [] && PlanFor(base, pre, tracks[..|tracks| - 1])
    requires |plan| == |pre| + 1 && plan[..|pre|] == pre
    requires plan[|pre|].id == tracks[|tracks| - 1].0 && (HasSlot(plan[|pre|]) <==> IsNormal(tracks[|tracks| - 1].1))
    ensures PlanFor(base, plan, tracks)
  {
    var init := tracks[..|tracks| - 1];
    PrefixOfPrefix(plan, pre, |base|);
    forall k | 0 <= k < |tracks|
      ensures plan[|base| + k].id == tracks[k].0
      ensures HasSlot(plan[|base| + k]) <==> IsNormal(tracks[k].1)
    {
      if k < |init| {
        assert plan[|base| + k] == pre[|base| + k];
        assert init[k] == tracks[k];
      }
    }
  }


  // ---------------------------------------------------------------------
  // The as-written slot and path of a reused deleted or private file

  /** A reused deleted/private file is stored under the current `index`
      without advancing it, so when the track before it was kept, the kept
      track's line is replaced and lost (main.py:316). */
  lemma ReusedTakesPreviousSlot(c: Context, tags: Path -> AudioTag, st: Loop,
                                id1: string, t1: Track, id2: string, t2: Track)
    requires IsNormal(t1) && (StagedPath(c, id1) in st.files || SyncedPath(c, id1) in st.files)
    requires !IsNormal(t2) && ReusableFile(c, Step(c, tags, st, id1, t1).files, id2).Some?
    ensures Get(Step(c, tags, st, id1, t1).m3u, st.index + 1) == Some(KeptLine(t1, c.playlistId, id1, c.ext))
    ensures Step(c, tags, Step(c, tags, st, id1, t1), id2, t2).index == st.index + 1
    ensures Keys(Step(c, tags, Step(c, tags, st, id1, t1), id2, t2).m3u) == Keys(Step(c, tags, st, id1, t1).m3u)
    ensures Get(Step(c, tags, Step(c, tags, st, id1, t1), id2, t2).m3u, st.index + 1) ==
            Some(ReusedLine(ErrorMessage(t2.name).value,
                            tags(ReusableFile(c, Step(c, tags, st, id1, t1).files, id2).value),
                            c.oldDir, id2, c.ext))
  {
    var s1 := Step(c, tags, st, id1, t1);
    assert s1.index == st.index + 1;
    assert s1.m3u == Put(st.m3u, st.index + 1, KeptLine(t1, c.playlistId, id1, c.ext));
    assert s1.index in Keys(s1.m3u);
    var found := ReusableFile(c, s1.files, id2).value;
    var s2 := Step(c, tags, s1, id2, t2);
    assert s2.m3u == Put(s1.m3u, s1.index, ReusedLine(ErrorMessage(t2.name).value, tags(found), c.oldDir, id2, c.ext));
  }

  /** The reused line is stored at the current slot and names the file
      under `old_dir`, even when the file was found only in the playlist
      folder (main.py:316-318). */
  lemma ReusedLineNamesOldDir(c: Context, tags: Path -> AudioTag, st: Loop, id: string, t: Track)
    requires !IsNormal(t) && OldPath(c, id) !in st.files && SyncedPath(c, id) in st.files
    ensures Step(c, tags, st, id, t).m3u == Put(st.m3u, st.index,
      ReusedLine(ErrorMessage(t.name).value, tags(SyncedPath(c, id)), c.oldDir, id, c.ext))
    ensures EndsWith(ReusedLine(ErrorMessage(t.name).value, tags(SyncedPath(c, id)), c.oldDir, id, c.ext),
                     Text(OldPath(c, id)))
  {
    var line := ReusedLine(ErrorMessage(t.name).value, tags(SyncedPath(c, id)), c.oldDir, id, c.ext);
    var head := "#EXTINF:" + IntToString(tags(SyncedPath(c, id)).lengthSeconds) + ",[" + ErrorMessage(t.name).value +
                "]: " + tags(SyncedPath(c, id)).title + " - Por: " + tags(SyncedPath(c, id)).artist + "\n";
    assert line == head + Text(OldPath(c, id));
  }
}
