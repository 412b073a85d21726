/** The remote playlist as yt-dlp's flat extraction reports it, and the
    `new_tracks` dictionary built from it (main.py:254-260). */
module Tracks {
  import opened Wrappers
  import opened OrderedDicts
  import opened Ordering

  /** One element of `data["entries"]`. `duration` is the text Python's
      f-string gives the reported value (an int, a float or `None`). */
  datatype Entry = Entry(id: string, title: string, duration: string, uploader: string,
                         liveStatus: Option<string>)

  /** The value stored in `new_tracks`. */
  datatype Track = Track(name: string, duration: string, uploader: string)

  /** The extraction result of one playlist (`data`). */
  datatype PlaylistData = PlaylistData(id: string, title: string, entries: seq<Entry>)

  /** `live_status` is truthy: neither `None` nor empty. */
  predicate IsLive(e: Entry) {
    e.liveStatus.Some? && e.liveStatus.value != ""
  }

  function TrackOf(e: Entry): Track {
    Track(e.title, e.duration, e.uploader)
  }

  /** The dict comprehension over the entries whose `live_status` is falsy;
      a repeated id keeps its first position and takes the later value. */
  function NewTracks(entries: seq<Entry>): (r: Dict<string, Track>)
    ensures UniqueKeys(r)
  {
    if entries == [] then []
    else
      var prev := NewTracks(entries[..|entries| - 1]);
      var e := entries[|entries| - 1];
      if IsLive(e) then prev else Put(prev, e.id, TrackOf(e))
  }

  /** The ids of the entries that are not live, in playlist order. */
  function NonLiveIds(entries: seq<Entry>): (r: seq<string>)
  {
    if entries == [] then []
    else
      var e := entries[|entries| - 1];
      NonLiveIds(entries[..|entries| - 1]) + (if IsLive(e) then [] else [e.id])
  }

  /** `new_tracks` is keyed by the ids of the non-live entries, each once,
      in the order of their first appearance. */
  lemma {:induction false} NewTracksKeys(entries: seq<Entry>)
    ensures Keys(NewTracks(entries)) == Dedup(NonLiveIds(entries))
  {
    if entries != [] {
      var pre := entries[..|entries| - 1];
      var e := entries[|entries| - 1];
      NewTracksKeys(pre);
      var ids := NonLiveIds(entries);
      var prev := NewTracks(pre);
      var d := Dedup(NonLiveIds(pre));
      if IsLive(e) {
        assert ids == NonLiveIds(pre);
        assert NewTracks(entries) == prev;
      } else {
        assert ids == NonLiveIds(pre) + [e.id];
        assert ids[..|ids| - 1] == NonLiveIds(pre);
        assert NewTracks(entries) == Put(prev, e.id, TrackOf(e));
        assert Dedup(ids) == if e.id in d then d else d + [e.id];
      }
    }
  }

  /** The value under an id is the track of the last non-live entry with
      that id. */
  lemma {:induction false} NewTracksValue(entries: seq<Entry>, j: nat)
    requires j < |entries| && !IsLive(entries[j])
    requires forall j' :: j < j' < |entries| && !IsLive(entries[j']) ==> entries[j'].id != entries[j].id
    ensures Get(NewTracks(entries), entries[j].id) == Some(TrackOf(entries[j]))
  {
    var pre := entries[..|entries| - 1];
    var e := entries[|entries| - 1];
    if j < |entries| - 1 {
      NewTracksValue(pre, j);
      if !IsLive(e) {
        PutOther(NewTracks(pre), e.id, TrackOf(e), entries[j].id);
      }
    }
  }

  /** Live entries never enter `new_tracks`; every non-live id does. */
  lemma NewTracksMembership(entries: seq<Entry>, id: string)
    ensures id in Keys(NewTracks(entries)) <==>
      exists j :: 0 <= j < |entries| && !IsLive(entries[j]) && entries[j].id == id
  {
    NewTracksKeys(entries);
    NonLiveIdsMembership(entries, id);
  }

  lemma {:induction false} NonLiveIdsMembership(entries: seq<Entry>, id: string)
    ensures id in NonLiveIds(entries) <==>
      exists j :: 0 <= j < |entries| && !IsLive(entries[j]) && entries[j].id == id
  {
    if entries != [] {
      var pre := entries[..|entries| - 1];
      NonLiveIdsMembership(pre, id);
      if exists j :: 0 <= j < |entries| && !IsLive(entries[j]) && entries[j].id == id {
        var j :| 0 <= j < |entries| && !IsLive(entries[j]) && entries[j].id == id;
        if j < |pre| { assert pre[j] == entries[j]; }
      }
      if exists j :: 0 <= j < |pre| && !IsLive(pre[j]) && pre[j].id == id {
        var j :| 0 <= j < |pre| && !IsLive(pre[j]) && pre[j].id == id;
        assert entries[j] == pre[j];
      }
    }
  }
}
