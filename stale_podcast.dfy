/**
 The podcast branch of the loop draws the podcast image into the frame buffer
 but leaves `current_track_id` alone.  When the same track resumes after a
 podcast its id still equals `current_track_id`, so its artwork is not drawn
 again and the clock thread keeps pushing the podcast image over the track.
 `Buffer` is what the frame buffer holds (`clear_pixoo` only switches channel,
 so a clear does not change it); `ShowsCurrentTrack` is the property the
 de-duplication relies on.
 */
module StalePodcastImage {
  import opened External
  import opened PlaybackQueries
  import opened Reconcile

  /** The image last drawn into the frame buffer by `log`, if any. */
  function Buffer(log: seq<Action>): (b: Option<Action>)
    ensures b.Some? ==> !b.value.Clear? && b.value in log
    ensures b.None? ==> forall i :: 0 <= i < |log| ==> log[i].Clear?
  {
    if log == [] then None
    else if !log[|log| - 1].Clear? then Some(log[|log| - 1])
    else Buffer(log[..|log| - 1])
  }

  lemma BufferAfter(log: seq<Action>, a: seq<Action>)
    requires |a| <= 1
    ensures Buffer(log + a) == if a == [] || a[0].Clear? then Buffer(log) else Some(a[0])
  {
    if a != [] {
      assert (log + a)[..|log|] == log;
    } else {
      assert log + a == log;
    }
  }

  /** Skipping a track whose id is `current_track_id` is right only if the buffer holds that track's artwork. */
  predicate ShowsCurrentTrack(st: State, log: seq<Action>)
  {
    st.currentTrackId.Some? ==>
      Buffer(log).Some? && Buffer(log).value.DrawArtwork? && Buffer(log).value.trackId == st.currentTrackId.value
  }

  /** As written, every cycle keeps `ShowsCurrentTrack` except one that draws the podcast image. */
  lemma CycleKeepsBufferUnlessPodcast(st: State, w: World, e: Env, log: seq<Action>)
    requires ShowsCurrentTrack(st, log) && Cycle(st, w, e).actions != [DrawPodcast]
    ensures ShowsCurrentTrack(Cycle(st, w, e).state, log + Cycle(st, w, e).actions)
  {
    CycleBounds(st, w, e);
    BufferAfter(log, Cycle(st, w, e).actions);
  }

  /** Track A plays, then a podcast episode (calls 3 and 4), then track A again. */
  function ResumeReply(i: nat): Reply
  {
    var a := Playback(true, "track", Some(Item(Some("A"), ["a640", "a300", "a64"])));
    if i == 3 || i == 4 then Answer(Some(Playback(true, "episode", None))) else Answer(Some(a))
  }

  const ResumeWorld: World := World(ResumeReply, (k: nat, url: string) => Decoded(Bitmap([k])))

  /**
   As written: after A's artwork and the podcast image, the third cycle, with A
   playing again, draws nothing, while the buffer still holds the podcast image.
   */
  lemma PodcastHidesResumedTrack()
    ensures var t := Run(Start, ResumeWorld, Env(Usage(0, 0), 0), 3);
      t.crash.None? && t.actions == [DrawArtwork("A", Bitmap([0])), DrawPodcast] &&
      t.state == State(Some("A"), true) && Buffer(t.actions) == Some(DrawPodcast) &&
      !ShowsCurrentTrack(t.state, t.actions)
  {
    var s1, e1 := State(Some("A"), true), Env(Usage(3, 0), 1);
    var e2 := Env(Usage(5, 0), 1);
    var e3 := Env(Usage(8, 0), 2);
    assert Cycle(Start, ResumeWorld, Env(Usage(0, 0), 0)) ==
      CycleResult(s1, e1, [ResumeReply(0).playback, ResumeReply(1).playback, ResumeReply(2).playback],
                  [DrawArtwork("A", Bitmap([0]))], Slept(PollSleep));
    assert Cycle(s1, ResumeWorld, e1) ==
      CycleResult(s1, e2, [ResumeReply(3).playback, ResumeReply(4).playback], [DrawPodcast], Slept(PollSleep));
    assert Cycle(s1, ResumeWorld, e2) ==
      CycleResult(s1, e3, [ResumeReply(5).playback, ResumeReply(6).playback, ResumeReply(7).playback], [], Slept(PollSleep));
    RunStep(Start, ResumeWorld, Env(Usage(0, 0), 0), 3);
    RunStep(s1, ResumeWorld, e1, 2);
    RunStep(s1, ResumeWorld, e2, 1);
    assert Run(s1, ResumeWorld, e3, 0) == Trace(s1, e3, [], 0, None);
    BufferAfter([DrawArtwork("A", Bitmap([0]))], [DrawPodcast]);
  }

  /** The loop body with the podcast branch also forgetting the track id, so the next track read redraws. */
  function CorrectedCycle(st: State, w: World, e: Env): CycleResult
  {
    var c := Cycle(st, w, e);
    if c.actions == [DrawPodcast] then c.(state := c.state.(currentTrackId := None)) else c
  }

  /** Corrected, every cycle keeps `ShowsCurrentTrack`, podcast included. */
  lemma CorrectedCycleKeepsBuffer(st: State, w: World, e: Env, log: seq<Action>)
    requires ShowsCurrentTrack(st, log)
    ensures var c := CorrectedCycle(st, w, e); ShowsCurrentTrack(c.state, log + c.actions)
  {
    if Cycle(st, w, e).actions != [DrawPodcast] {
      CycleKeepsBufferUnlessPodcast(st, w, e, log);
    }
  }

  /** Corrected, the resumed track A of the same world is drawn again in the third cycle. */
  lemma CorrectedRedrawsResumedTrack()
    ensures var c1 := CorrectedCycle(Start, ResumeWorld, Env(Usage(0, 0), 0));
      var c2 := CorrectedCycle(c1.state, ResumeWorld, c1.env);
      var c3 := CorrectedCycle(c2.state, ResumeWorld, c2.env);
      c1.actions + c2.actions + c3.actions == [DrawArtwork("A", Bitmap([0])), DrawPodcast, DrawArtwork("A", Bitmap([1]))] &&
      c3.state == State(Some("A"), true)
  {
    var s1, e1 := State(Some("A"), true), Env(Usage(3, 0), 1);
    var e2 := Env(Usage(5, 0), 1);
    assert CorrectedCycle(Start, ResumeWorld, Env(Usage(0, 0), 0)) ==
      CycleResult(s1, e1, [ResumeReply(0).playback, ResumeReply(1).playback, ResumeReply(2).playback],
                  [DrawArtwork("A", Bitmap([0]))], Slept(PollSleep));
    assert CorrectedCycle(s1, ResumeWorld, e1) ==
      CycleResult(State(None, true), e2, [ResumeReply(3).playback, ResumeReply(4).playback], [DrawPodcast], Slept(PollSleep));
    assert CorrectedCycle(State(None, true), ResumeWorld, e2) ==
      CycleResult(s1, Env(Usage(8, 0), 2), [ResumeReply(5).playback, ResumeReply(6).playback, ResumeReply(7).playback],
                  [DrawArtwork("A", Bitmap([1]))], Slept(PollSleep));
  }
}
