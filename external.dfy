/**
 The collaborators the reconciliation loop talks to, reduced to what the loop
 observes of them: the music service's `current_playback()` query, the HTTP
 session that downloads cover art, and the Pixoo display.  The service and the
 session are oracles indexed by how many calls were made so far, so every
 possible behaviour of the remote side is covered; the display is an action log.
 */
module External {

  datatype Option<T> = None | Some(value: T)

  datatype Result<T, E> = Ok(value: T) | Err(error: E)

  /** The `item` of a playback record: its id (null for local files) and the URLs of its album images. */
  datatype Item = Item(id: Option<string>, imageUrls: seq<string>)

  /** A playback record as returned by `current_playback()` when something is loaded. */
  datatype Playback = Playback(isPlaying: bool, currentlyPlayingType: string, item: Option<Item>)

  /** One answer of the service: a (possibly null) playback record, or an exception carrying an HTTP status. */
  datatype Reply = Answer(playback: Option<Playback>) | HttpError(status: int)

  /** The exceptions that can leave the helpers of the loop, and with them the loop itself. */
  datatype Raised =
    | SpotifyException(httpStatus: int)  // raised by the service and not absorbed by re-authentication
    | ItemMissing                        // the record has a null `item` (subscripting None)
    | ImageIndexError                    // the album has fewer than three images
    | ArtworkUnavailable                 // the GET failed after its retries, or the body did not decode

  /** A decoded image, kept opaque. */
  datatype Bitmap = Bitmap(pixels: seq<int>)

  /** What one GET of an artwork URL yields once decoded. */
  datatype Download = Decoded(image: Bitmap) | DownloadFailed

  /**
   What the loop does to the display.  `Clear` is `clear_pixoo` (switch to the
   built-in faces channel, clock face 0); `DrawPodcast` draws the fixed podcast
   image into the frame buffer; `DrawArtwork` draws a decoded cover into the
   frame buffer, labelled with the track it was fetched for.
   */
  datatype Action = Clear | DrawPodcast | DrawArtwork(trackId: string, image: Bitmap)

  /** Counts of calls made to the music service and of clients built after a 401. */
  datatype Usage = Usage(calls: nat, rebuilds: nat)

  /** The remote music service as seen through a client. */
  class SpotifyService {
    /** The answer to the service's n-th `current_playback()` call. */
    const reply: nat -> Reply
    var calls: nat
    var rebuilds: nat

    function Used(): Usage
      reads this
    {
      Usage(calls, rebuilds)
    }

    constructor (reply: nat -> Reply)
      ensures this.reply == reply && Used() == Usage(0, 0)
    {
      this.reply := reply;
      calls, rebuilds := 0, 0;
    }

    method CurrentPlayback() returns (r: Reply)
      modifies this`calls
      ensures r == reply(old(calls)) && calls == old(calls) + 1
    {
      r := reply(calls);
      calls := calls + 1;
    }

    /** `get_spotify_client()`: a new client with a fresh OAuth manager. */
    method RebuildClient()
      modifies this`rebuilds
      ensures rebuilds == old(rebuilds) + 1
    {
      rebuilds := rebuilds + 1;
    }
  }

  /** The `requests` session with its retry adapter, plus the image decoder. */
  class HttpSession {
    /** What the n-th GET, of the given URL, yields after retries and decoding. */
    const download: (nat, string) -> Download
    var gets: nat

    constructor (download: (nat, string) -> Download)
      ensures this.download == download && gets == 0
    {
      this.download := download;
      gets := 0;
    }

    method Get(url: string) returns (d: Download)
      modifies this
      ensures d == download(old(gets), url) && gets == old(gets) + 1
    {
      d := download(gets, url);
      gets := gets + 1;
    }
  }

  /** The Pixoo device, recorded as the list of actions sent to it. */
  class Display {
    var log: seq<Action>

    constructor ()
      ensures log == []
    {
      log := [];
    }

    method Perform(a: Action)
      modifies this
      ensures log == old(log) + [a]
    {
      log := log + [a];
    }
  }
}
