/** The Last.fm client of `utils/lastfm.py`: the parameter maps each call
    sends, the method signature over them (Last.fm API authentication,
    "Sign your calls") and the error check on the reply. MD5 (RFC 1321),
    followed by the hexadecimal digest of the UTF-8 bytes, is the function
    `md5` given to the calls that sign. */
module LastFm {
  import opened Wrappers
  import opened Strings
  import opened Ordering
  import opened OrderedDicts

  /** A query string as sent: names and values, in insertion order. */
  type Query = Dict<string, string>

  /** The parameter names the client sends. */
  datatype Field =
    | Method | ApiKey | Format | Token | ApiSig | SessionKey
    | Artist | Track | Album | Duration | Timestamp
    | Artist0 | Track0 | Timestamp0 | ChosenByUser0
    | Limit | Autocorrect | Mbid

  /** The name a field is sent under. */
  function Name(f: Field): string {
    match f
    case Method => "method"
    case ApiKey => "api_key"
    case Format => "format"
    case Token => "token"
    case ApiSig => "api_sig"
    case SessionKey => "sk"
    case Artist => "artist"
    case Track => "track"
    case Album => "album"
    case Duration => "duration"
    case Timestamp => "timestamp"
    case Artist0 => "artist[0]"
    case Track0 => "track[0]"
    case Timestamp0 => "timestamp[0]"
    case ChosenByUser0 => "chosenByUser[0]"
    case Limit => "limit"
    case Autocorrect => "autocorrect"
    case Mbid => "mbid"
  }

  /** The parameters of one call, keyed by field. */
  type Params = Dict<Field, string>

  /** The query string a parameter map is sent as. */
  function Wire(params: Params): (r: Query)
    ensures |r| == |params|
    ensures forall i :: 0 <= i < |params| ==> r[i] == (Name(params[i].0), params[i].1)
  {
    if params == [] then [] else [(Name(params[0].0), params[0].1)] + Wire(params[1..])
  }

  // ---------------------------------------------------------------------
  // The signature

  /** `key + value` for each of `keys`, in that order. */
  function KeyValueText(query: Query, keys: seq<string>): string {
    if keys == [] then ""
    else keys[0] + Get(query, keys[0]).GetOr("") + KeyValueText(query, keys[1..])
  }

  /** The text `generate_api_sig` hashes (utils/lastfm.py:44-45): every
      key followed by its value, keys in ascending order, then the secret. */
  function Preimage(query: Query, secret: string): (r: string)
    ensures EndsWith(r, secret)
  {
    KeyValueText(query, Sort(Keys(query))) + secret
  }

  /** With unique keys the keys are visited in strictly ascending order,
      each exactly once. */
  lemma PreimageKeyOrder(query: Query)
    requires UniqueKeys(query)
    ensures StrictlyAscending(Sort(Keys(query)))
    ensures forall k :: k in Sort(Keys(query)) <==> k in Keys(query)
  {
    var ks := Keys(query);
    assert NoDuplicates(ks);
    SortNoDuplicates(ks);
    forall k ensures k in Sort(ks) <==> k in ks {
      assert k in Sort(ks) <==> k in multiset(Sort(ks));
    }
  }

  lemma GetAt(d: Query, i: nat)
    requires UniqueKeys(d) && i < |d|
    ensures Get(d, d[i].0) == Some(d[i].1)
  {
    var j := IndexOfKey(d, d[i].0);
  }

  lemma {:induction false} KeyValueTextAgree(a: Query, b: Query, keys: seq<string>)
    requires forall k :: k in keys ==> Get(a, k) == Get(b, k)
    ensures KeyValueText(a, keys) == KeyValueText(b, keys)
    decreases |keys|
  {
    if keys != [] {
      assert keys[0] in keys;
      assert forall k :: k in keys[1..] ==> k in keys;
      KeyValueTextAgree(a, b, keys[1..]);
    }
  }

  /** Maps with the same entries have the same keys. */
  lemma SameKeys(a: Query, b: Query)
    requires SameEntries(a, b)
    ensures forall y :: y in Keys(a) <==> y in Keys(b)
  {
    forall y ensures y in Keys(a) <==> y in Keys(b) {
      if y in Keys(a) {
        var i :| 0 <= i < |a| && a[i].0 == y;
        assert Get(b, y).Some?;
      }
      if y in Keys(b) {
        var i :| 0 <= i < |b| && b[i].0 == y;
        assert Get(a, y).Some?;
      }
    }
  }

  /** The signed text does not depend on the order the parameters were
      inserted in (utils/lastfm.py:44 sorts the keys). */
  lemma PreimageOrderIndependent(a: Query, b: Query, secret: string)
    requires UniqueKeys(a) && UniqueKeys(b) && SameEntries(a, b)
    ensures Preimage(a, secret) == Preimage(b, secret)
  {
    var ka, kb := Keys(a), Keys(b);
    assert NoDuplicates(ka) && NoDuplicates(kb);
    SameKeys(a, b);
    SortSameElements(kb, ka);
    SameGets(a, b);
    forall k | k in Sort(ka) ensures k in ka {
      assert k in multiset(Sort(ka));
    }
    KeyValueTextAgree(a, b, Sort(ka));
  }

  /** Maps with the same entries give the same value for each key. */
  lemma SameGets(a: Query, b: Query)
    requires UniqueKeys(a) && SameEntries(a, b)
    ensures forall k :: k in Keys(a) ==> Get(a, k) == Get(b, k)
  {
    forall k | k in Keys(a) ensures Get(a, k) == Get(b, k) {
      var i :| 0 <= i < |a| && a[i].0 == k;
      GetAt(a, i);
    }
  }

  /** Every map with the same entries as `params` has its pre-image. */
  lemma PreimagesAgree(params: Params, secret: string)
    ensures forall q: Params :: UniqueKeys(Wire(q)) && UniqueKeys(Wire(params)) && SameEntries(Wire(q), Wire(params)) ==>
              Preimage(Wire(q), secret) == Preimage(Wire(params), secret)
  {
    forall q: Params | UniqueKeys(Wire(q)) && UniqueKeys(Wire(params)) && SameEntries(Wire(q), Wire(params))
      ensures Preimage(Wire(q), secret) == Preimage(Wire(params), secret)
    {
      PreimageOrderIndependent(Wire(q), Wire(params), secret);
    }
  }

  /** `generate_api_sig` (utils/lastfm.py:43-46) under the client's
      secret: the signature depends only on the entries of the map, not on
      the order they were inserted in. */
  function Signature(params: Params, secret: string, md5: string -> string): (r: string)
    ensures forall q: Params :: UniqueKeys(Wire(q)) && UniqueKeys(Wire(params)) && SameEntries(Wire(q), Wire(params)) ==>
              r == md5(Preimage(Wire(q), secret))
  {
    PreimagesAgree(params, secret);
    md5(Preimage(Wire(params), secret))
  }

  /** `params['api_sig'] = generate_api_sig(params)`: the signature is
      computed over the map before it holds `api_sig`. */
  function Sign(params: Params, secret: string, md5: string -> string): Params {
    Put(params, ApiSig, Signature(params, secret, md5))
  }

  /** `params["format"] = "json"` (utils/lastfm.py:49, 57). */
  function WithFormat(params: Params): Params {
    Put(params, Format, "json")
  }

  /** A map without `api_sig` and `format` is sent as itself, then its
      signature, then `format`: neither of the two is part of the signed
      text. */
  lemma SignedThenFormatted(params: Params, secret: string, md5: string -> string)
    requires ApiSig !in Keys(params) && Format !in Keys(params)
    ensures WithFormat(Sign(params, secret, md5)) ==
            params + [(ApiSig, Signature(params, secret, md5)), (Format, "json")]
  {
    var sig := Signature(params, secret, md5);
    PutNew(params, ApiSig, sig);
    var signed := params + [(ApiSig, sig)];
    PutNew(signed, Format, "json");
    AppendTwo(params, (ApiSig, sig), (Format, "json"));
  }

  // ---------------------------------------------------------------------
  // The parameter maps, as reference definitions

  /** The fields of `get_session_key` (utils/lastfm.py:75-79). */
  function SessionFields(apiKey: string, token: string): Params {
    [(Method, "auth.getSession"), (ApiKey, apiKey), (Token, token)]
  }

  /** The fields of `track_scrobble` (utils/lastfm.py:86-102): `album` and
      `duration` only when truthy, `chosenByUser[0]` only when the user did
      not choose the track; `now` is `int(time.time())`. */
  function ScrobbleFields(apiKey: string, artist: string, track: string, album: string, duration: int,
                          sessionKey: string, chosenByUser: bool, now: int): Params {
    [(Method, "track.scrobble"), (Artist0, artist), (Timestamp0, IntToString(now - 30)),
     (Track0, track), (ApiKey, apiKey), (SessionKey, sessionKey)]
    + (if !chosenByUser then [(ChosenByUser0, "0")] else [])
    + (if album != "" then [(Album, album)] else [])
    + (if duration != 0 then [(Duration, IntToString(duration))] else [])
  }

  /** The fields of `update_nowplaying` (utils/lastfm.py:110-122). */
  function NowPlayingFields(apiKey: string, artist: string, track: string, album: string, duration: int,
                            sessionKey: string, now: int): Params {
    [(Method, "track.updateNowPlaying"), (Artist, artist), (Track, track),
     (Timestamp, IntToString(now - 30)), (ApiKey, apiKey), (SessionKey, sessionKey)]
    + (if album != "" then [(Album, album)] else [])
    + (if duration != 0 then [(Duration, IntToString(duration))] else [])
  }

  /** The fields of `search_track` (utils/lastfm.py:129-136). */
  function SearchFields(apiKey: string, track: string, artist: string, limit: int): Params {
    [(Method, "track.search"), (Track, track), (ApiKey, apiKey), (Limit, IntToString(limit))]
    + (if artist != "" then [(Artist, artist)] else [])
  }

  /** The fields of `get_similar_tracks` (utils/lastfm.py:140-150). */
  function SimilarTracksFields(apiKey: string, track: string, artist: string, mbid: string): Params {
    [(Method, "track.getSimilar"), (ApiKey, apiKey), (Autocorrect, "1")]
    + (if mbid != "" then [(Mbid, mbid)] else [(Track, track)])
    + (if mbid == "" && artist != "" then [(Artist, artist)] else [])
  }

  /** The fields of `get_similar_artists` (utils/lastfm.py:155-163). */
  function SimilarArtistsFields(apiKey: string, artist: string, mbid: string): Params {
    [(Method, "artist.getSimilar"), (ApiKey, apiKey), (Autocorrect, "1")]
    + (if mbid != "" then [(Mbid, mbid)] else [(Artist, artist)])
  }

  /** The keys of `track_scrobble`: `chosenByUser[0]`, `album` and
      `duration` exactly when their conditions hold, after the six fixed
      ones; never `api_sig` or `format`. */
  lemma ScrobbleFieldsKeys(apiKey: string, artist: string, track: string, album: string, duration: int,
                           sessionKey: string, chosenByUser: bool, now: int)
    ensures var f := ScrobbleFields(apiKey, artist, track, album, duration, sessionKey, chosenByUser, now);
      && Keys(f) == [Method, Artist0, Timestamp0, Track0, ApiKey, SessionKey]
                    + (if !chosenByUser then [ChosenByUser0] else [])
                    + (if album != "" then [Album] else [])
                    + (if duration != 0 then [Duration] else [])
      && ApiSig !in Keys(f) && Format !in Keys(f)
  {
    var base: Params := [(Method, "track.scrobble"), (Artist0, artist), (Timestamp0, IntToString(now - 30)),
                         (Track0, track), (ApiKey, apiKey), (SessionKey, sessionKey)];
    var c: Params := if !chosenByUser then [(ChosenByUser0, "0")] else [];
    var a: Params := if album != "" then [(Album, album)] else [];
    var d: Params := if duration != 0 then [(Duration, IntToString(duration))] else [];
    assert Keys(base) == [Method, Artist0, Timestamp0, Track0, ApiKey, SessionKey];
    assert Keys(c) == if !chosenByUser then [ChosenByUser0] else [];
    assert Keys(a) == if album != "" then [Album] else [];
    assert Keys(d) == if duration != 0 then [Duration] else [];
    KeysAppend(base, c);
    KeysAppend(base + c, a);
    KeysAppend(base + c + a, d);
    forall k | k == ApiSig || k == Format ensures k !in Keys(base + c + a + d) {
      NotInAppend(k, Keys(base), Keys(c));
      NotInAppend(k, Keys(base + c), Keys(a));
      NotInAppend(k, Keys(base + c + a), Keys(d));
    }
  }

  /** The values `track_scrobble` sends. */
  lemma ScrobbleFieldsValues(apiKey: string, artist: string, track: string, album: string, duration: int,
                             sessionKey: string, chosenByUser: bool, now: int)
    ensures var f := ScrobbleFields(apiKey, artist, track, album, duration, sessionKey, chosenByUser, now);
      && (Artist0, artist) in f && (Track0, track) in f && (SessionKey, sessionKey) in f
      && (Timestamp0, IntToString(now - 30)) in f && (Method, "track.scrobble") in f
      && (!chosenByUser ==> (ChosenByUser0, "0") in f)
      && (album != "" ==> (Album, album) in f)
      && (duration != 0 ==> (Duration, IntToString(duration)) in f)
  {
    var base: Params := [(Method, "track.scrobble"), (Artist0, artist), (Timestamp0, IntToString(now - 30)),
                         (Track0, track), (ApiKey, apiKey), (SessionKey, sessionKey)];
    var c: Params := if !chosenByUser then [(ChosenByUser0, "0")] else [];
    var a: Params := if album != "" then [(Album, album)] else [];
    var d: Params := if duration != 0 then [(Duration, IntToString(duration))] else [];
    assert base[0] in base && base[1] in base && base[2] in base && base[3] in base && base[5] in base;
    assert forall x :: x in base ==> x in base + c + a + d;
    assert forall x :: x in c ==> x in base + c + a + d;
    assert forall x :: x in a ==> x in base + c + a + d;
    assert forall x :: x in d ==> x in base + c + a + d;
  }

  /** The assignments of `track_scrobble` build `ScrobbleFields`. */
  lemma ScrobbleBuilt(apiKey: string, artist: string, track: string, album: string, duration: int,
                      sessionKey: string, chosenByUser: bool, now: int)
    ensures var p0 := [(Method, "track.scrobble"), (Artist0, artist), (Timestamp0, IntToString(now - 30)),
                       (Track0, track), (ApiKey, apiKey), (SessionKey, sessionKey)];
      var p1 := if !chosenByUser then Put(p0, ChosenByUser0, "0") else p0;
      var p2 := if album != "" then Put(p1, Album, album) else p1;
      var p3 := if duration != 0 then Put(p2, Duration, IntToString(duration)) else p2;
      p3 == ScrobbleFields(apiKey, artist, track, album, duration, sessionKey, chosenByUser, now)
  {
    var p0 := [(Method, "track.scrobble"), (Artist0, artist), (Timestamp0, IntToString(now - 30)),
               (Track0, track), (ApiKey, apiKey), (SessionKey, sessionKey)];
    assert Keys(p0) == [Method, Artist0, Timestamp0, Track0, ApiKey, SessionKey];
    PutIfThree(p0, !chosenByUser, ChosenByUser0, "0", album != "", Album, album,
               duration != 0, Duration, IntToString(duration));
  }

  /** The keys of `update_nowplaying`: method, artist, track, timestamp,
      api_key and sk, then `album` and `duration` exactly when truthy. */
  lemma NowPlayingFieldsKeys(apiKey: string, artist: string, track: string, album: string, duration: int,
                             sessionKey: string, now: int)
    ensures var f := NowPlayingFields(apiKey, artist, track, album, duration, sessionKey, now);
      && Keys(f) == [Method, Artist, Track, Timestamp, ApiKey, SessionKey]
                    + (if album != "" then [Album] else []) + (if duration != 0 then [Duration] else [])
      && ApiSig !in Keys(f) && Format !in Keys(f)
  {
    var base: Params := [(Method, "track.updateNowPlaying"), (Artist, artist), (Track, track),
                         (Timestamp, IntToString(now - 30)), (ApiKey, apiKey), (SessionKey, sessionKey)];
    var a: Params := if album != "" then [(Album, album)] else [];
    var d: Params := if duration != 0 then [(Duration, IntToString(duration))] else [];
    assert Keys(base) == [Method, Artist, Track, Timestamp, ApiKey, SessionKey];
    assert Keys(a) == if album != "" then [Album] else [];
    assert Keys(d) == if duration != 0 then [Duration] else [];
    KeysAppend(base, a);
    KeysAppend(base + a, d);
    forall k | k == ApiSig || k == Format ensures k !in Keys(base + a + d) {
      NotInAppend(k, Keys(base), Keys(a));
      NotInAppend(k, Keys(base + a), Keys(d));
    }
  }

  /** With an mbid the similar-items requests name no track or artist;
      without one they name the track, and the artist when given. */
  lemma SimilarFieldsKeys(apiKey: string, track: string, artist: string, mbid: string)
    ensures mbid != "" ==>
      && Keys(SimilarTracksFields(apiKey, track, artist, mbid)) == [Method, ApiKey, Autocorrect, Mbid]
      && Keys(SimilarArtistsFields(apiKey, artist, mbid)) == [Method, ApiKey, Autocorrect, Mbid]
    ensures mbid == "" ==>
      && Keys(SimilarTracksFields(apiKey, track, artist, mbid)) ==
           [Method, ApiKey, Autocorrect, Track] + (if artist != "" then [Artist] else [])
      && Keys(SimilarArtistsFields(apiKey, artist, mbid)) == [Method, ApiKey, Autocorrect, Artist]
  {
    var base: Params := [(Method, "track.getSimilar"), (ApiKey, apiKey), (Autocorrect, "1")];
    var base2: Params := [(Method, "artist.getSimilar"), (ApiKey, apiKey), (Autocorrect, "1")];
    if mbid != "" {
      KeysAppend(base, [(Mbid, mbid)]);
      KeysAppend(base2, [(Mbid, mbid)]);
    } else {
      var ar: Params := if artist != "" then [(Artist, artist)] else [];
      assert Keys(ar) == if artist != "" then [Artist] else [];
      KeysAppend(base, [(Track, track)]);
      KeysAppend(base + [(Track, track)], ar);
      KeysAppend(base2, [(Artist, artist)]);
    }
  }

  /** A scrobble goes out as its fields, then the signature over exactly
      those fields, then `format`. */
  lemma ScrobbleRequest(apiKey: string, artist: string, track: string, album: string, duration: int,
                        sessionKey: string, chosenByUser: bool, now: int, secret: string, md5: string -> string)
    ensures var f := ScrobbleFields(apiKey, artist, track, album, duration, sessionKey, chosenByUser, now);
      WithFormat(Sign(f, secret, md5)) == f + [(ApiSig, Signature(f, secret, md5)), (Format, "json")]
  {
    ScrobbleFieldsKeys(apiKey, artist, track, album, duration, sessionKey, chosenByUser, now);
    SignedThenFormatted(ScrobbleFields(apiKey, artist, track, album, duration, sessionKey, chosenByUser, now),
                        secret, md5);
  }

  /** A now-playing update goes out as its fields, then the signature over
      exactly those fields, then `format`. */
  lemma NowPlayingRequest(apiKey: string, artist: string, track: string, album: string, duration: int,
                          sessionKey: string, now: int, secret: string, md5: string -> string)
    ensures var f := NowPlayingFields(apiKey, artist, track, album, duration, sessionKey, now);
      WithFormat(Sign(f, secret, md5)) == f + [(ApiSig, Signature(f, secret, md5)), (Format, "json")]
  {
    NowPlayingFieldsKeys(apiKey, artist, track, album, duration, sessionKey, now);
    SignedThenFormatted(NowPlayingFields(apiKey, artist, track, album, duration, sessionKey, now), secret, md5);
  }

  /** A session-key request goes out as its three fields, then the
      signature over them, then `format`. */
  lemma SessionRequest(apiKey: string, token: string, secret: string, md5: string -> string)
    ensures var f := SessionFields(apiKey, token);
      WithFormat(Sign(f, secret, md5)) == f + [(ApiSig, Signature(f, secret, md5)), (Format, "json")]
  {
    assert Keys(SessionFields(apiKey, token)) == [Method, ApiKey, Token];
    SignedThenFormatted(SessionFields(apiKey, token), secret, md5);
  }

  /** An unsigned request without `format` goes out with `format` last. */
  lemma FormatLast(params: Params)
    requires Format !in Keys(params)
    ensures WithFormat(params) == params + [(Format, "json")]
    ensures Get(WithFormat(params), Format) == Some("json")
  {
    PutNew(params, Format, "json");
  }

  // ---------------------------------------------------------------------
  // Replies

  /** The fields of a reply the client looks at: `error` and `message`. */
  datatype Reply = Reply(error: Option<int>, message: string)

  /** `LastFmException` (utils/lastfm.py:16-19). */
  datatype LastFmError = LastFmError(code: int, message: string)

  /** `if data.get('error'): raise LastFmException(data)`: a present,
      non-zero error code is raised with the reply's message. */
  function Checked(reply: Reply): (r: Result<Reply, LastFmError>)
    ensures r.Err? <==> reply.error.Some? && reply.error.value != 0
    ensures r.Err? ==> r.error == LastFmError(reply.error.value, reply.message)
    ensures r.Ok? ==> r.value == reply
  {
    if reply.error.Some? && reply.error.value != 0 then Err(LastFmError(reply.error.value, reply.message))
    else Ok(reply)
  }

  // ---------------------------------------------------------------------
  // The client

  /** `LastFM` without its TTL cache and the browser-based login. */
  class LastFmClient {
    const apiKey: string
    const apiSecret: string

    constructor(apiKey: string, apiSecret: string)
      ensures this.apiKey == apiKey && this.apiSecret == apiSecret
    {
      this.apiKey := apiKey;
      this.apiSecret := apiSecret;
    }

    /** `request_lastfm` and `post_lastfm` (utils/lastfm.py:48-62), which
        differ only in the HTTP verb: `format` is set on the caller's map,
        the request goes out and `reply` comes back. */
    method Call(params: Params, reply: Reply) returns (sent: Params, result: Result<Reply, LastFmError>)
      ensures sent == WithFormat(params)
      ensures Get(sent, Format) == Some("json")
      ensures result == Checked(reply)
    {
      sent := Put(params, Format, "json");
      if reply.error.Some? && reply.error.value != 0 {
        return sent, Err(LastFmError(reply.error.value, reply.message));
      }
      return sent, Ok(reply);
    }

    /** `get_token` (utils/lastfm.py:64-72): `format` is already in the
        map, so setting it again keeps its place. */
    method GetToken(reply: Reply) returns (sent: Params, result: Result<Reply, LastFmError>)
      ensures sent == [(Method, "auth.getToken"), (ApiKey, apiKey), (Format, "json")]
      ensures result == Checked(reply)
    {
      var params := [(Method, "auth.getToken"), (ApiKey, apiKey), (Format, "json")];
      PutPresent(params, 2);
      sent, result := Call(params, reply);
    }

    /** `get_session_key` (utils/lastfm.py:74-81): the three fields,
        signed, then `format`. */
    method GetSessionKey(token: string, md5: string -> string, reply: Reply)
      returns (sent: Params, result: Result<Reply, LastFmError>)
      ensures sent == WithFormat(Sign(SessionFields(apiKey, token), apiSecret, md5))
      ensures result == Checked(reply)
    {
      var params := [(Method, "auth.getSession"), (ApiKey, apiKey), (Token, token)];
      params := Put(params, ApiSig, Signature(params, apiSecret, md5));
      sent, result := Call(params, reply);
    }

    /** `track_scrobble` (utils/lastfm.py:83-106): the fields, signed,
        then `format`. */
    method TrackScrobble(artist: string, track: string, album: string, duration: int, sessionKey: string,
                         chosenByUser: bool, now: int, md5: string -> string, reply: Reply)
      returns (sent: Params, result: Result<Reply, LastFmError>)
      ensures sent == WithFormat(Sign(ScrobbleFields(apiKey, artist, track, album, duration, sessionKey,
                                                     chosenByUser, now), apiSecret, md5))
      ensures result == Checked(reply)
    {
      var params := [(Method, "track.scrobble"), (Artist0, artist), (Timestamp0, IntToString(now - 30)),
                     (Track0, track), (ApiKey, apiKey), (SessionKey, sessionKey)];
      if !chosenByUser {
        params := Put(params, ChosenByUser0, "0");
      }
      if album != "" {
        params := Put(params, Album, album);
      }
      if duration != 0 {
        params := Put(params, Duration, IntToString(duration));
      }
      ScrobbleBuilt(apiKey, artist, track, album, duration, sessionKey, chosenByUser, now);
      params := Put(params, ApiSig, Signature(params, apiSecret, md5));
      sent, result := Call(params, reply);
    }

    /** `update_nowplaying` (utils/lastfm.py:108-126): the fields, signed,
        then `format`. */
    method UpdateNowPlaying(artist: string, track: string, album: string, duration: int, sessionKey: string,
                            now: int, md5: string -> string, reply: Reply)
      returns (sent: Params, result: Result<Reply, LastFmError>)
      ensures sent == WithFormat(Sign(NowPlayingFields(apiKey, artist, track, album, duration, sessionKey, now),
                                      apiSecret, md5))
      ensures result == Checked(reply)
    {
      var params := [(Method, "track.updateNowPlaying"), (Artist, artist), (Track, track),
                     (Timestamp, IntToString(now - 30)), (ApiKey, apiKey), (SessionKey, sessionKey)];
      ghost var keys := [Method, Artist, Track, Timestamp, ApiKey, SessionKey];
      assert Keys(params) == keys;
      PutIf(params, album != "", Album, album);
      if album != "" {
        params := Put(params, Album, album);
      }
      NotInAppend(Duration, keys, if album != "" then [Album] else []);
      PutIf(params, duration != 0, Duration, IntToString(duration));
      if duration != 0 {
        params := Put(params, Duration, IntToString(duration));
      }
      params := Put(params, ApiSig, Signature(params, apiSecret, md5));
      sent, result := Call(params, reply);
    }

    /** `search_track` (utils/lastfm.py:128-137): unsigned; `limit` is an
        integer rendered in decimal. */
    method SearchTrack(track: string, artist: string, limit: int, reply: Reply)
      returns (sent: Params, result: Result<Reply, LastFmError>)
      ensures sent == WithFormat(SearchFields(apiKey, track, artist, limit))
      ensures result == Checked(reply)
    {
      var params := [(Method, "track.search"), (Track, track), (ApiKey, apiKey), (Limit, IntToString(limit))];
      assert Keys(params) == [Method, Track, ApiKey, Limit];
      PutIf(params, artist != "", Artist, artist);
      if artist != "" {
        params := Put(params, Artist, artist);
      }
      sent, result := Call(params, reply);
    }

    /** `get_similar_tracks` (utils/lastfm.py:139-152): unsigned. */
    method GetSimilarTracks(track: string, artist: string, mbid: string, reply: Reply)
      returns (sent: Params, result: Result<Reply, LastFmError>)
      ensures sent == WithFormat(SimilarTracksFields(apiKey, track, artist, mbid))
      ensures result == Checked(reply)
    {
      var params := [(Method, "track.getSimilar"), (ApiKey, apiKey), (Autocorrect, "1")];
      assert Keys(params) == [Method, ApiKey, Autocorrect];
      if mbid != "" {
        PutNew(params, Mbid, mbid);
        params := Put(params, Mbid, mbid);
        AppendEmpty(params);
      } else {
        PutNew(params, Track, track);
        params := Put(params, Track, track);
        PutIf(params, artist != "", Artist, artist);
        if artist != "" {
          params := Put(params, Artist, artist);
        }
      }
      assert params == SimilarTracksFields(apiKey, track, artist, mbid);
      sent, result := Call(params, reply);
    }

    /** `get_similar_artists` (utils/lastfm.py:154-165): unsigned. */
    method GetSimilarArtists(artist: string, mbid: string, reply: Reply)
      returns (sent: Params, result: Result<Reply, LastFmError>)
      ensures sent == WithFormat(SimilarArtistsFields(apiKey, artist, mbid))
      ensures result == Checked(reply)
    {
      var params := [(Method, "artist.getSimilar"), (ApiKey, apiKey), (Autocorrect, "1")];
      assert Keys(params) == [Method, ApiKey, Autocorrect];
      if mbid != "" {
        PutNew(params, Mbid, mbid);
        params := Put(params, Mbid, mbid);
      } else {
        PutNew(params, Artist, artist);
        params := Put(params, Artist, artist);
      }
      sent, result := Call(params, reply);
    }

    /** `user_info` (utils/lastfm.py:167-173): unsigned. */
    method UserInfo(sessionKey: string, reply: Reply) returns (sent: Params, result: Result<Reply, LastFmError>)
      ensures sent == [(Method, "user.getInfo"), (ApiKey, apiKey), (SessionKey, sessionKey), (Format, "json")]
      ensures result == Checked(reply)
    {
      var params := [(Method, "user.getInfo"), (ApiKey, apiKey), (SessionKey, sessionKey)];
      sent, result := Call(params, reply);
    }
  }
}
