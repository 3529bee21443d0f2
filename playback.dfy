/**
 The three helpers of main.py that query the music service: `is_playing`,
 `is_podcast` and the track-id part of `get_current_track_image`.  Each one
 issues its own `current_playback()` call under the same rule: a 401 makes it
 build a new client once and ask once more; any other failure, and any failure
 of the second attempt, is raised to the caller.
 */
module PlaybackQueries {
  import opened External

  const Unauthorized: int := 401

  /** Index of the album image the loop downloads (`images[2]`). */
  const ArtworkIndex: nat := 2

  /** The outcome of one guarded query: its result, how many calls it made and whether it rebuilt the client. */
  datatype Fetched = Fetched(result: Result<Option<Playback>, Raised>, used: nat, rebuilt: bool)

  /** A reply turned into what the Python call returns or raises. */
  function Answered(r: Reply): Result<Option<Playback>, Raised>
  {
    match r
    case Answer(p) => Ok(p)
    case HttpError(status) => Err(SpotifyException(status))
  }

  /**
   The guarded query starting at the service's call number `at`.  A rebuild
   happens exactly when the first reply is a 401; then two calls are made,
   otherwise one; and the result is whatever the last call made answered.
   */
  function Query(reply: nat -> Reply, at: nat): (q: Fetched)
    ensures q.rebuilt <==> reply(at) == HttpError(Unauthorized)
    ensures q.used == (if q.rebuilt then 2 else 1)
    ensures q.result == Answered(reply(at + q.used - 1))
  {
    if reply(at) == HttpError(Unauthorized) then Fetched(Answered(reply(at + 1)), 2, true)
    else Fetched(Answered(reply(at)), 1, false)
  }

  /** The service usage after a guarded query. */
  function Spend(u: Usage, q: Fetched): Usage
  {
    Usage(u.calls + q.used, u.rebuilds + if q.rebuilt then 1 else 0)
  }

  /** A status other than 401 is raised at once: no rebuild and no second call. */
  lemma OtherStatusNotRetried(reply: nat -> Reply, at: nat, status: int)
    requires reply(at) == HttpError(status) && status != Unauthorized
    ensures Query(reply, at) == Fetched(Err(SpotifyException(status)), 1, false)
  {
  }

  /** After a 401 the second attempt is not guarded: whatever it raises, 401 included, is raised. */
  lemma RetryFailureRaised(reply: nat -> Reply, at: nat, status: int)
    requires reply(at) == HttpError(Unauthorized) && reply(at + 1) == HttpError(status)
    ensures Query(reply, at) == Fetched(Err(SpotifyException(status)), 2, true)
  {
  }

  /** The try/except block shared by the three helpers (main.py:56-64, 79-87, 97-105). */
  method QueryPlayback(svc: SpotifyService) returns (r: Result<Option<Playback>, Raised>)
    modifies svc
    ensures var q := Query(svc.reply, old(svc.calls));
      r == q.result && svc.Used() == Spend(old(svc.Used()), q)
  {
    var first := svc.CurrentPlayback();
    if first == HttpError(Unauthorized) {
      svc.RebuildClient();
      var second := svc.CurrentPlayback();
      r := Answered(second);
    } else {
      r := Answered(first);
    }
  }

  /** What `is_playing` decides from a record. */
  predicate Playing(p: Option<Playback>)
  {
    p.Some? && p.value.isPlaying
  }

  /** What `is_podcast` decides from a record. */
  predicate Podcast(p: Option<Playback>)
  {
    p.Some? && p.value.currentlyPlayingType == "episode"
  }

  method IsPlaying(svc: SpotifyService) returns (r: Result<bool, Raised>)
    modifies svc
    ensures var q := Query(svc.reply, old(svc.calls));
      svc.Used() == Spend(old(svc.Used()), q) &&
      (r.Err? <==> q.result.Err?) &&
      (r.Err? ==> r.error == q.result.error) &&
      (r.Ok? ==> (r.value <==> q.result.value != None && q.result.value.value.isPlaying))
  {
    var p := QueryPlayback(svc);
    if p.Err? {
      return Err(p.error);
    }
    r := Ok(Playing(p.value));
  }

  method IsPodcast(svc: SpotifyService) returns (r: Result<bool, Raised>)
    modifies svc
    ensures var q := Query(svc.reply, old(svc.calls));
      svc.Used() == Spend(old(svc.Used()), q) &&
      (r.Err? <==> q.result.Err?) &&
      (r.Err? ==> r.error == q.result.error) &&
      (r.Ok? ==> (r.value <==> q.result.value != None && q.result.value.value.currentlyPlayingType == "episode"))
  {
    var p := QueryPlayback(svc);
    if p.Err? {
      return Err(p.error);
    }
    r := Ok(Podcast(p.value));
  }

  /** What `get_current_track_image` returns: `(None, None)`, or a track id (possibly null) and its decoded cover. */
  datatype TrackImage = NothingPlaying | Artwork(trackId: Option<string>, image: Bitmap)

  /** Its result together with the HTTP session's GET count afterwards. */
  datatype TrackFetch = TrackFetch(result: Result<TrackImage, Raised>, gets: nat)

  /**
   The part of `get_current_track_image` after the query, for record `p`, the
   download oracle and the number of GETs made so far.  A null record yields
   `NothingPlaying` without any download.  Otherwise the third album image is
   downloaded whenever the record has an item with at least three images, and
   artwork is returned only when that download decoded, carrying the item's id.
   */
  function ReadTrack(p: Option<Playback>, download: (nat, string) -> Download, gets: nat): (f: TrackFetch)
    ensures f.result == Ok(NothingPlaying) <==> p.None?
    ensures f.gets == gets + if p.Some? && p.value.item.Some? && |p.value.item.value.imageUrls| > ArtworkIndex then 1 else 0
    ensures f.result.Ok? && f.result.value.Artwork? <==>
      p.Some? && p.value.item.Some? && |p.value.item.value.imageUrls| > ArtworkIndex &&
      download(gets, p.value.item.value.imageUrls[ArtworkIndex]).Decoded?
    ensures f.result.Ok? && f.result.value.Artwork? ==>
      f.result.value.trackId == p.value.item.value.id &&
      download(gets, p.value.item.value.imageUrls[ArtworkIndex]) == Decoded(f.result.value.image)
  {
    match p
    case None => TrackFetch(Ok(NothingPlaying), gets)
    case Some(record) =>
      match record.item
      case None => TrackFetch(Err(ItemMissing), gets)
      case Some(item) =>
        if |item.imageUrls| <= ArtworkIndex then TrackFetch(Err(ImageIndexError), gets)
        else match download(gets, item.imageUrls[ArtworkIndex])
          case DownloadFailed => TrackFetch(Err(ArtworkUnavailable), gets + 1)
          case Decoded(image) => TrackFetch(Ok(Artwork(item.id, image)), gets + 1)
  }

  /** `get_current_track_image` (main.py:54-74): a guarded query, then `ReadTrack` on its record. */
  method GetCurrentTrackImage(svc: SpotifyService, http: HttpSession) returns (r: Result<TrackImage, Raised>)
    modifies svc, http
    ensures var q := Query(svc.reply, old(svc.calls));
      svc.Used() == Spend(old(svc.Used()), q) &&
      if q.result.Err? then r == Err(q.result.error) && http.gets == old(http.gets)
      else var f := ReadTrack(q.result.value, http.download, old(http.gets));
        r == f.result && http.gets == f.gets
  {
    var p := QueryPlayback(svc);
    if p.Err? {
      return Err(p.error);
    }
    if p.value.None? {
      return Ok(NothingPlaying);
    }
    var item := p.value.value.item;
    if item.None? {
      return Err(ItemMissing);
    }
    if |item.value.imageUrls| <= ArtworkIndex {
      return Err(ImageIndexError);
    }
    var d := http.Get(item.value.imageUrls[ArtworkIndex]);
    if d.DownloadFailed? {
      return Err(ArtworkUnavailable);
    }
    r := Ok(Artwork(item.value.id, d.image));
  }
}
