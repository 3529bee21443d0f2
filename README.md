# Pixoo Spotify playback reconciliation, modelled in Dafny

This project models the polling loop of `main.py` in pixoo-spotify. Every
cycle the loop asks the Spotify Web API whether something is playing. If
nothing is, it clears the Pixoo 64 (clock face) and turns the clock overlay
off. If something is, it turns the overlay on and asks whether the content is
a podcast episode. A podcast gets the fixed podcast image. Otherwise the loop
reads the track, downloads the third album image (`images[2]`) and draws it, but only
when the track id differs from the id it drew last (`current_track_id`).

Each of the three helpers (`is_playing`, `is_podcast` and
`get_current_track_image`) makes its own `current_playback()` call. Each
applies the same rule: on an HTTP 401 it builds a new client and asks once
more; any other error, and any error on the second attempt, is raised.
`main` has no exception handler, so anything raised ends the loop.

How the model is built:

- `external.dfy` (module `External`) holds the collaborators.
  - The music service is an oracle: reply number `i` is whatever the service
    answers to the `i`-th `current_playback()` call, either a (possibly null)
    playback record or an HTTP error status.
  - Downloads are an oracle indexed by GET number and URL, reduced to
    "decoded image" or "failed".
  - The display is a log of actions: `Clear`, `DrawPodcast`, and
    `DrawArtwork`, labelled with the track the image was fetched for.
- `playback.dfy` (module `PlaybackQueries`) models the 401 retry (`Query`,
  `QueryPlayback`) and the three helpers as methods. Each helper is proved
  against a function of the oracle.
- `reconcile.dfy` (module `Reconcile`) has three parts.
  - `Cycle` specifies one pass of the loop body: the new state, the usage of
    the oracles, the records each check saw, the display actions, and the
    outcome (sleep, or an exception that leaves `main`).
  - `Run`/`Then` specify up to `n` passes.
  - The class `Reconciler` holds `current_track_id` and `show_clock`. Its
    methods `RunCycle` and `Loop` are proved to do what `Cycle` and `Run`
    specify.
- `properties.dfy` (module `ReconcileProperties`) states what a cycle does in
  each situation and proves artwork de-duplication: over any run, whatever
  the service answers, no draw repeats the track drawn just before it, and
  over any stretch of cycles whose calls all report one track that track is
  drawn at most once. It also works through a six-cycle run.
- `stale_podcast.dfy` (module `StalePodcastImage`) shows the stale-podcast
  defect listed under Findings, together with the corrected cycle.

Facts about `main.py` that the model keeps:

- Each cycle reads the playback state up to three times, once per helper, so
  one cycle may see three different answers (`ChecksCanDisagree`).
- Nothing in `main` catches an exception: an error from any query, a null
  `item`, an album with fewer than three images (`images[2]`) or a failed
  artwork download leaves `main` and ends the loop.
- `main` never calls `push()`; the frame buffer reaches the device only
  when the clock thread pushes it while `show_clock` is on.

## Model

| member | source | states |
|---|---|---|
| External.SpotifyService.CurrentPlayback | main.py:57 | a `current_playback()` call returns the answer for the current call number and advances it by one |
| External.SpotifyService.RebuildClient | main.py:49-51 | `get_spotify_client()` after a 401 counts one more client built and touches nothing else |
| External.HttpSession.Get | main.py:71-72 | an artwork GET with its decode yields the oracle's answer for this GET number and URL, and advances the GET count by one |
| External.Display.Perform | main.py:135-138 | a device command is appended to the action log and nothing earlier changes |
| PlaybackQueries.Query | main.py:56-64 | the client is rebuilt exactly when the first reply is a 401; then exactly two calls are made, otherwise one; the result is what the last call answered, raised if that was an error |
| PlaybackQueries.OtherStatusNotRetried | main.py:63-64 | a non-401 error is re-raised after one call, with no rebuild and no retry |
| PlaybackQueries.RetryFailureRaised | main.py:59-62 | the retry after a 401 is unguarded: its error, 401 included, is raised after exactly two calls and one rebuild |
| PlaybackQueries.QueryPlayback | main.py:56-64 | the shared try/except returns `Query`'s result and uses the service exactly as `Query` says |
| PlaybackQueries.IsPlaying | main.py:77-92 | fails exactly when the query raised, with that error; otherwise true iff the record is non-null and `is_playing` holds |
| PlaybackQueries.IsPodcast | main.py:95-110 | fails exactly when the query raised; otherwise true iff the record is non-null and its type is "episode" |
| PlaybackQueries.ReadTrack | main.py:66-74 | a null record yields (None, None) and nothing else does; a download happens iff there is an item with at least three images; artwork comes back iff that download decoded, and it carries the item's id and that image |
| PlaybackQueries.GetCurrentTrackImage | main.py:54-74 | raises what the query raised, without downloading; otherwise returns `ReadTrack` of the record with the same GET count |
| Reconcile.CycleBounds | main.py:154-171 | a cycle reads at most three records and at least one if it completes; it makes 1 to 6 service calls, at most 3 rebuilds, at most 1 GET and at most 1 display action; `current_track_id` changes exactly when artwork is drawn, to the drawn track's id |
| Reconcile.SeenAreReplies | main.py:155-164 | the records a cycle acts on are the answers of its three queries, in call order, each query starting right after the calls of the one before; none is seen exactly when the first query raised |
| Reconcile.Run | main.py:154-171 | a run of `n` cycles ends only on an exception before `n`, after at least one cycle |
| Reconcile.Then | main.py:154-171 | a run continued after its first cycle has at most `m + 1` cycles, exactly that many unless it raised |
| Reconcile.RunConsumption | main.py:56-64 | `k` cycles make between `k` and `6k` service calls, at most `3k` rebuilds, at most `k` GETs and at most `k` display actions |
| Reconcile.RunSnoc | main.py:154-171 | a run one cycle longer is unchanged if it has already raised; otherwise it adds one cycle from where it stopped |
| Reconcile.RunStops | main.py:154-171 | once a run has raised, more cycles change nothing: the exception has left `main` |
| Reconcile.Reconciler.constructor | main.py:46 | the loop starts with `show_clock` false and `current_track_id` None (main.py:147) |
| Reconcile.Reconciler.RunCycle | main.py:155-171 | one pass of the loop body leaves the state, oracle usage, display log and outcome that `Cycle` specifies |
| Reconcile.Reconciler.Step | main.py:154-171 | after `k` cycles that match the run, one more pass matches the first `k + 1` cycles, or the whole run if it raised |
| Reconcile.Reconciler.Loop | main.py:154-171 | the `while True` loop, stopped after `n` cycles or at the first exception, ends in the state, usage and display log of `Run` |
| ReconcileProperties.IdleCycle | main.py:155-158 | nothing playing: clock off, one clear, sleep 10 + 2, `current_track_id` kept |
| ReconcileProperties.ClockOnWhilePlaying | main.py:159-160 | once the first check finds something playing, the clock is on whatever follows, exceptions included; the sleep is 2 |
| ReconcileProperties.ClockFollowsFirstCheck | main.py:155-160 | after a completed cycle the clock is on iff its first check found something playing |
| ReconcileProperties.DrawsHappenWithClockOn | main.py:160-169 | every image drawn into the frame buffer is drawn with `show_clock` on, so the clock thread pushes it |
| ReconcileProperties.PodcastDrawnEveryCycle | main.py:161-162 | a podcast is drawn on every cycle that sees one, without de-duplication, and `current_track_id` is kept |
| ReconcileProperties.NoPlaybackClears | main.py:164-166 | when the track read finds no playback, the display is cleared and `current_track_id` kept |
| ReconcileProperties.SameTrackNotRedrawn | main.py:167 | a track id equal to `current_track_id` draws nothing and changes nothing but the clock flag |
| ReconcileProperties.NewTrackDrawnOnce | main.py:167-169 | a new track id becomes `current_track_id`, and exactly one draw, of that track, is sent |
| ReconcileProperties.ExceptionLeavesDisplayAlone | main.py:154-171 | an exception in any helper reaches the loop before any display action and keeps `current_track_id` |
| ReconcileProperties.TrackCycle | main.py:164-169 | when the three calls a cycle reads report track x playing, it makes exactly those calls, and a completed cycle makes x current and draws iff it was not current already |
| ReconcileProperties.RestOfTrackRun | main.py:167 | after the first cycle of a stretch of one track, the remaining cycles of the stretch draw nothing |
| ReconcileProperties.SameTrackRunNeverRedraws | main.py:167 | over any `n` cycles whose `3n` calls report the track already drawn, nothing is drawn and the track stays current |
| ReconcileProperties.TrackRunDrawsAtMostOnce | main.py:167-169 | over any `n` cycles whose `3n` calls report one track playing, whatever comes after, its artwork is drawn at most once; exactly once, leaving it current, when the cycles complete and the track was not already drawn |
| ReconcileProperties.ScenarioCycles | main.py:154-171 | the six cycles of a worked run (nothing, podcast, A, A, B, nothing), one by one |
| ReconcileProperties.Scenario | main.py:154-171 | six cycles send clear, podcast, A, B, clear (A's second cycle downloads but draws nothing) and end with B current and the clock off |
| ReconcileProperties.ScenarioStretchOfA | main.py:164-169 | in the worked run, the two cycles in which A plays, before B takes over, complete and draw A's artwork exactly once |
| ReconcileProperties.LastDrawnAppend | main.py:167-169 | the track drawn last after two action sequences is the last of the second, started from the first's; no-repeat sequences concatenate |
| ReconcileProperties.CycleDrawsNewTrack | main.py:164-169 | after any cycle `current_track_id` is the track drawn last, and a draw never repeats the id current before it |
| ReconcileProperties.ThenDrawsNewTracks | main.py:154-171 | the rest of a run keeps `current_track_id` equal to the track drawn last, with no repeated draw |
| ReconcileProperties.RunDrawsNewTracks | main.py:154-171 | over any run, 401 retries and track changes included, `current_track_id` is the track drawn last and no draw repeats the track drawn just before it |
| ReconcileProperties.ReauthStretch | main.py:59-62 | a stretch of track A that begins with a 401 and a re-authentication (four calls) draws A once and then nothing |
| ReconcileProperties.ChecksCanDisagree | main.py:155-166 | the three checks read separate replies: a cycle can see a track playing, then nothing, and clear with the clock on |
| StalePodcastImage.Buffer | main.py:135-138 | the frame buffer holds the last image drawn; a clear only switches channel and leaves it alone |
| StalePodcastImage.CycleKeepsBufferUnlessPodcast | main.py:161-169 | as written, every cycle except a podcast draw keeps "the buffer holds `current_track_id`'s artwork" |
| StalePodcastImage.PodcastHidesResumedTrack | main.py:161-167 | as written: track A, a podcast, then A again draws nothing while the buffer holds the podcast image |
| StalePodcastImage.CorrectedCycleKeepsBuffer | main.py:161-169 | when the podcast branch forgets the track id, every cycle keeps the buffer showing the current track's artwork |
| StalePodcastImage.CorrectedRedrawsResumedTrack | main.py:161-169 | corrected, track A is drawn again when it resumes after the podcast |

## Left out

- The clock thread `add_clock_to_artwork` is not modelled: its drawing, its time zone arithmetic and its unsynchronised reads of `show_clock`. Only the flag it reads is modelled.
- Spotify OAuth and client construction are reduced to a count of clients built. The helpers rebind `sp` only locally and discard the new client; the oracle stands for whatever any client answers next.
- The HTTP retry adapter (3 retries, backoff, status list), the 10-second timeout and the PIL decode are folded into the download oracle's "decoded" or "failed".
- Pixoo device I/O is recorded as abstract actions. Device commands (`set_channel`, `set_clock`, `draw_image`) and reading the podcast image file `Podcast.png` are assumed never to raise, though in main.py an error from them would leave `main` like any other. The colour constants in `pixoo/_colors.py` have no behaviour to model.
- `time.sleep` is recorded as the sleep length in the cycle's outcome; time itself is not modelled.
- The `logging.error` call on a 401, environment loading and logging setup are process bootstrap and are not modelled.
- Reconcile.Reconciler.Loop: the source loop never stops; the model runs it for a bound of `n` cycles.
- Reconcile.Cycle carries no contract of its own. What it does is stated by `CycleBounds`, by the lemmas of `ReconcileProperties` and by `RunCycle`, which is proved against it.

## Findings

| source | as written | input that shows it | evidently intended | confidence | as-written member | corrected member |
|---|---|---|---|---|---|---|
| main.py:161-162 | the podcast branch draws the podcast image but leaves `current_track_id` set, so when the same track resumes its artwork is not redrawn and the clock thread keeps pushing the podcast image | replies: track A for the first three calls, an episode for calls 3 and 4, track A after that; three cycles from the start | drawing the podcast image also forgets the track id, so the resumed track is drawn again | not executed | StalePodcastImage.PodcastHidesResumedTrack | StalePodcastImage.CorrectedCycleKeepsBuffer |
