/**
 What the reconciliation loop guarantees, stated over `Cycle` and `Run`: the
 action chosen in each situation, the `show_clock` flag, de-duplication of
 artwork draws over any stretch of the same track, and a worked run.
 */
module ReconcileProperties {
  import opened External
  import opened PlaybackQueries
  import opened Reconcile

  /** The track id a record carries, if it has an item. */
  function TrackIdOf(p: Option<Playback>): Option<string>
  {
    if p.Some? && p.value.item.Some? then p.value.item.value.id else None
  }

  /** When the first check finds nothing playing: clock off, clear, sleep 10 + 2, track id kept. */
  lemma IdleCycle(st: State, w: World, e: Env)
    requires |Cycle(st, w, e).seen| >= 1 && !Playing(Cycle(st, w, e).seen[0])
    ensures var c := Cycle(st, w, e);
      |c.seen| == 1 && c.state == st.(showClock := false) &&
      c.actions == [Clear] && c.outcome == Slept(IdleSleep + PollSleep)
  {
  }

  /**
   Once the first check finds something playing, the clock is on, whatever the
   podcast check, the track read or the download then do (exceptions included),
   and the cycle sleeps only the short interval.
   */
  lemma ClockOnWhilePlaying(st: State, w: World, e: Env)
    requires |Cycle(st, w, e).seen| >= 1 && Playing(Cycle(st, w, e).seen[0])
    ensures var c := Cycle(st, w, e);
      c.state.showClock && (c.outcome.Slept? ==> c.outcome.seconds == PollSleep)
  {
  }

  /** A cycle that completes leaves the clock on exactly when its first check found something playing. */
  lemma ClockFollowsFirstCheck(st: State, w: World, e: Env)
    requires Cycle(st, w, e).outcome.Slept?
    ensures var c := Cycle(st, w, e);
      |c.seen| >= 1 && (c.state.showClock <==> Playing(c.seen[0]))
  {
  }

  /** Every image drawn into the frame buffer is drawn with the clock on, so the clock thread pushes it. */
  lemma DrawsHappenWithClockOn(st: State, w: World, e: Env)
    requires var c := Cycle(st, w, e); c.actions != [] && !c.actions[0].Clear?
    ensures Cycle(st, w, e).state.showClock
  {
  }

  /** A podcast is drawn on every cycle that sees one, with no de-duplication, and the track id is kept. */
  lemma PodcastDrawnEveryCycle(st: State, w: World, e: Env)
    requires |Cycle(st, w, e).seen| >= 2 && Podcast(Cycle(st, w, e).seen[1])
    ensures var c := Cycle(st, w, e);
      c.state == st.(showClock := true) && c.actions == [DrawPodcast] && c.outcome == Slept(PollSleep)
  {
  }

  /** Playing and not a podcast, but the track read finds no playback: clear, track id kept. */
  lemma NoPlaybackClears(st: State, w: World, e: Env)
    requires |Cycle(st, w, e).seen| == 3 && Cycle(st, w, e).seen[2].None?
    ensures var c := Cycle(st, w, e);
      c.state == st.(showClock := true) && c.actions == [Clear] && c.outcome == Slept(PollSleep)
  {
  }

  /** The track read returns the id already drawn: nothing is drawn and nothing but the clock flag changes. */
  lemma SameTrackNotRedrawn(st: State, w: World, e: Env)
    requires var c := Cycle(st, w, e);
      |c.seen| == 3 && c.outcome.Slept? && st.currentTrackId.Some? && TrackIdOf(c.seen[2]) == st.currentTrackId
    ensures var c := Cycle(st, w, e);
      c.state == st.(showClock := true) && c.actions == []
  {
  }

  /** The track read returns a new id: it becomes the current id and exactly one artwork draw, of that track, is sent. */
  lemma NewTrackDrawnOnce(st: State, w: World, e: Env, x: string)
    requires var c := Cycle(st, w, e);
      |c.seen| == 3 && c.outcome.Slept? && TrackIdOf(c.seen[2]) == Some(x) && st.currentTrackId != Some(x)
    ensures var c := Cycle(st, w, e);
      c.state == State(Some(x), true) && |c.actions| == 1 && c.actions[0].DrawArtwork? && c.actions[0].trackId == x
  {
  }

  /** An exception raised anywhere in a cycle reaches the loop before any display action, and keeps the track id. */
  lemma ExceptionLeavesDisplayAlone(st: State, w: World, e: Env)
    requires Cycle(st, w, e).outcome.Crashed?
    ensures var c := Cycle(st, w, e);
      c.actions == [] && c.state.currentTrackId == st.currentTrackId
  {
  }

  /** A reply showing track `x` playing (so not an episode). */
  predicate PlaysTrack(r: Reply, x: string)
  {
    r.Answer? && r.playback.Some? && r.playback.value.isPlaying &&
    r.playback.value.currentlyPlayingType != "episode" &&
    r.playback.value.item.Some? && r.playback.value.item.value.id == Some(x)
  }

  /** Calls `from` to `from + count - 1` all answer that track `x` is playing. */
  ghost predicate PlaysTrackFor(w: World, from: nat, count: nat, x: string)
  {
    forall i {:trigger PlaysTrack(w.reply(i), x)} :: from <= i < from + count ==> PlaysTrack(w.reply(i), x)
  }

  /**
   One cycle while the three calls it reads show track `x`: it makes exactly
   those three calls, and a completed cycle makes `x` current and draws iff it
   was not current already.
   */
  lemma TrackCycle(st: State, w: World, e: Env, x: string)
    requires PlaysTrackFor(w, e.spotify.calls, 3, x)
    ensures var c := Cycle(st, w, e);
      c.env.spotify.calls == e.spotify.calls + 3 &&
      c.state.currentTrackId == (if c.outcome.Slept? then Some(x) else st.currentTrackId) &&
      ArtworkDraws(c.actions) == (if c.outcome.Slept? && st.currentTrackId != Some(x) then 1 else 0)
  {
    var calls := e.spotify.calls;
    assert PlaysTrack(w.reply(calls), x);
    assert PlaysTrack(w.reply(calls + 1), x);
    assert PlaysTrack(w.reply(calls + 2), x);
    CycleBounds(st, w, e);
  }

  /** The calls of a stretch after its first three are the calls of the rest of the stretch. */
  lemma PlaysTrackForRest(w: World, from: nat, n: nat, x: string)
    requires n > 0 && PlaysTrackFor(w, from, 3 * n, x)
    ensures PlaysTrackFor(w, from, 3, x) && PlaysTrackFor(w, from + 3, 3 * (n - 1), x)
  {
  }

  /**
   The cycles after a first cycle `c` of a stretch of track `x` draw nothing: a
   completed `c` has made `x` current, and `x` goes on playing for the `m`
   cycles that follow.
   */
  lemma {:induction false} RestOfTrackRun(c: CycleResult, w: World, m: nat, x: string)
    requires c.outcome.Slept? ==> c.state.currentTrackId == Some(x) && PlaysTrackFor(w, c.env.spotify.calls, 3 * m, x)
    ensures var t := Then(c, w, m);
      ArtworkDraws(t.actions) == ArtworkDraws(c.actions) &&
      t.state.currentTrackId == (if c.outcome.Slept? then Some(x) else c.state.currentTrackId) &&
      (t.crash.None? ==> c.outcome.Slept?)
    decreases m, 1
  {
    if c.outcome.Slept? {
      var t := Run(c.state, w, c.env, m);
      SameTrackRunNeverRedraws(c.state, w, c.env, m, x);
      ArtworkDrawsAppend(c.actions, t.actions);
    }
  }

  /** Over any `n` cycles that read only track `x`, already drawn, nothing is drawn again. */
  lemma {:induction false} SameTrackRunNeverRedraws(st: State, w: World, e: Env, n: nat, x: string)
    requires st.currentTrackId == Some(x) && PlaysTrackFor(w, e.spotify.calls, 3 * n, x)
    ensures ArtworkDraws(Run(st, w, e, n).actions) == 0 && Run(st, w, e, n).state.currentTrackId == Some(x)
    decreases n, 0
  {
    if n > 0 {
      PlaysTrackForRest(w, e.spotify.calls, n, x);
      TrackCycle(st, w, e, x);
      RestOfTrackRun(Cycle(st, w, e), w, n - 1, x);
    }
  }

  /**
   Over any `n` cycles whose calls all show track `x` playing, its artwork is
   drawn at most once; exactly once when they complete and the track was not
   already drawn, and it is current afterwards.
   */
  lemma {:induction false} TrackRunDrawsAtMostOnce(st: State, w: World, e: Env, n: nat, x: string)
    requires PlaysTrackFor(w, e.spotify.calls, 3 * n, x)
    ensures var t := Run(st, w, e, n);
      ArtworkDraws(t.actions) <= 1 &&
      (n > 0 && t.crash.None? ==>
        t.state.currentTrackId == Some(x) &&
        ArtworkDraws(t.actions) == (if st.currentTrackId == Some(x) then 0 else 1))
  {
    if n > 0 {
      PlaysTrackForRest(w, e.spotify.calls, n, x);
      TrackCycle(st, w, e, x);
      RestOfTrackRun(Cycle(st, w, e), w, n - 1, x);
    }
  }

  /** The track of the last artwork drawn by `a`, or `init` if `a` draws none. */
  function LastDrawn(a: seq<Action>, init: Option<string>): Option<string>
  {
    if a == [] then init
    else LastDrawn(a[1..], if a[0].DrawArtwork? then Some(a[0].trackId) else init)
  }

  /** No artwork draw in `a` repeats the track drawn last before it (`init` before the first). */
  predicate NoRepeatDraw(a: seq<Action>, init: Option<string>)
  {
    a == [] ||
    ((a[0].DrawArtwork? ==> Some(a[0].trackId) != init) &&
     NoRepeatDraw(a[1..], if a[0].DrawArtwork? then Some(a[0].trackId) else init))
  }

  lemma {:induction false} LastDrawnAppend(a: seq<Action>, b: seq<Action>, init: Option<string>)
    ensures LastDrawn(a + b, init) == LastDrawn(b, LastDrawn(a, init))
    ensures NoRepeatDraw(a, init) && NoRepeatDraw(b, LastDrawn(a, init)) ==> NoRepeatDraw(a + b, init)
    decreases |a|
  {
    if a == [] {
      assert a + b == b;
    } else {
      assert (a + b)[0] == a[0] && (a + b)[1..] == a[1..] + b;
      LastDrawnAppend(a[1..], b, if a[0].DrawArtwork? then Some(a[0].trackId) else init);
    }
  }

  /** One cycle: `current_track_id` ends as the last track drawn, and a draw never repeats the current id. */
  lemma CycleDrawsNewTrack(st: State, w: World, e: Env)
    ensures var c := Cycle(st, w, e);
      c.state.currentTrackId == LastDrawn(c.actions, st.currentTrackId) &&
      NoRepeatDraw(c.actions, st.currentTrackId)
  {
    var c := Cycle(st, w, e);
    CycleBounds(st, w, e);
    if c.actions != [] {
      assert c.actions[1..] == [];
    }
  }

  /**
   The rest of a run after its first cycle `c`, when `c` left `current_track_id`
   as the last track drawn from `init` without a repeat, keeps both facts.
   */
  lemma {:induction false} ThenDrawsNewTracks(c: CycleResult, w: World, m: nat, init: Option<string>)
    requires c.state.currentTrackId == LastDrawn(c.actions, init) && NoRepeatDraw(c.actions, init)
    ensures var t := Then(c, w, m);
      t.state.currentTrackId == LastDrawn(t.actions, init) && NoRepeatDraw(t.actions, init)
    decreases m, 1
  {
    if c.outcome.Slept? {
      var t := Run(c.state, w, c.env, m);
      RunDrawsNewTracks(c.state, w, c.env, m);
      LastDrawnAppend(c.actions, t.actions, init);
    }
  }

  /**
   Over any run, whatever the service answers (401 retries and changes of
   track included): `current_track_id` is always the track drawn last, and no
   artwork draw repeats the track drawn just before it, so a run of equal
   track ids draws that track at most once.
   */
  lemma {:induction false} RunDrawsNewTracks(st: State, w: World, e: Env, n: nat)
    ensures var t := Run(st, w, e, n);
      t.state.currentTrackId == LastDrawn(t.actions, st.currentTrackId) &&
      NoRepeatDraw(t.actions, st.currentTrackId)
    decreases n, 0
  {
    if n > 0 {
      CycleDrawsNewTrack(st, w, e);
      ThenDrawsNewTracks(Cycle(st, w, e), w, n - 1, st.currentTrackId);
    }
  }

  /** Replies: a 401, then track A for ever. */
  function ReauthReply(i: nat): Reply
  {
    if i == 0 then HttpError(Unauthorized) else Answer(Some(TrackA))
  }

  /**
   A stretch of track A that starts with a re-authentication: the first cycle
   makes four calls and draws A, the second draws nothing.
   */
  lemma ReauthStretch()
    ensures var t := Run(Start, World(ReauthReply, ScenarioDownload), Env(Usage(0, 0), 0), 2);
      t.crash.None? && t.actions == [DrawArtwork("A", Bitmap([0]))] &&
      t.env.spotify == Usage(7, 1) && NoRepeatDraw(t.actions, None)
  {
    var w := World(ReauthReply, ScenarioDownload);
    var s1, e1 := State(Some("A"), true), Env(Usage(4, 1), 1);
    var e2 := Env(Usage(7, 1), 2);
    assert Cycle(Start, w, Env(Usage(0, 0), 0)) ==
      CycleResult(s1, e1, [Some(TrackA), Some(TrackA), Some(TrackA)], [DrawArtwork("A", Bitmap([0]))], Slept(PollSleep));
    assert Cycle(s1, w, e1) == CycleResult(s1, e2, [Some(TrackA), Some(TrackA), Some(TrackA)], [], Slept(PollSleep));
    RunStep(Start, w, Env(Usage(0, 0), 0), 2);
    RunStep(s1, w, e1, 1);
    assert Run(s1, w, e2, 0) == Trace(s1, e2, [], 0, None);
    RunDrawsNewTracks(Start, w, Env(Usage(0, 0), 0), 2);
  }

  // A worked run: nothing, a podcast, track A twice, track B, nothing.

  const Episode: Playback := Playback(true, "episode", None)
  const TrackA: Playback := Playback(true, "track", Some(Item(Some("A"), ["a640", "a300", "a64"])))
  const TrackB: Playback := Playback(true, "track", Some(Item(Some("B"), ["b640", "b300", "b64"])))

  /** Replies by call number: cycle 1 uses call 0, cycle 2 calls 1-2, cycles 3-5 three calls each, cycle 6 call 12. */
  function ScenarioReply(i: nat): Reply
  {
    if i == 0 || i >= 12 then Answer(None)
    else if i <= 2 then Answer(Some(Episode))
    else if i <= 8 then Answer(Some(TrackA))
    else Answer(Some(TrackB))
  }

  /** Every download decodes, to an image naming the GET that fetched it. */
  function ScenarioDownload(k: nat, url: string): Download
  {
    Decoded(Bitmap([k]))
  }

  const ScenarioWorld: World := World(ScenarioReply, ScenarioDownload)

  /** The six cycles of the worked run, one by one. */
  lemma ScenarioCycles()
    ensures Cycle(Start, ScenarioWorld, Env(Usage(0, 0), 0)) ==
      CycleResult(State(None, false), Env(Usage(1, 0), 0), [None], [Clear], Slept(IdleSleep + PollSleep))
    ensures Cycle(State(None, false), ScenarioWorld, Env(Usage(1, 0), 0)) ==
      CycleResult(State(None, true), Env(Usage(3, 0), 0), [Some(Episode), Some(Episode)], [DrawPodcast], Slept(PollSleep))
    ensures Cycle(State(None, true), ScenarioWorld, Env(Usage(3, 0), 0)) ==
      CycleResult(State(Some("A"), true), Env(Usage(6, 0), 1), [Some(TrackA), Some(TrackA), Some(TrackA)],
                  [DrawArtwork("A", Bitmap([0]))], Slept(PollSleep))
    ensures Cycle(State(Some("A"), true), ScenarioWorld, Env(Usage(6, 0), 1)) ==
      CycleResult(State(Some("A"), true), Env(Usage(9, 0), 2), [Some(TrackA), Some(TrackA), Some(TrackA)], [], Slept(PollSleep))
    ensures Cycle(State(Some("A"), true), ScenarioWorld, Env(Usage(9, 0), 2)) ==
      CycleResult(State(Some("B"), true), Env(Usage(12, 0), 3), [Some(TrackB), Some(TrackB), Some(TrackB)],
                  [DrawArtwork("B", Bitmap([2]))], Slept(PollSleep))
    ensures Cycle(State(Some("B"), true), ScenarioWorld, Env(Usage(12, 0), 3)) ==
      CycleResult(State(Some("B"), false), Env(Usage(13, 0), 3), [None], [Clear], Slept(IdleSleep + PollSleep))
  {
  }

  /**
   Six cycles from the start state: a clear, the podcast, A's artwork, nothing
   for A again (though its cover is downloaded a second time), B's artwork, a clear.
   */
  lemma Scenario()
    ensures var t := Run(Start, ScenarioWorld, Env(Usage(0, 0), 0), 6);
      t.crash.None? &&
      t.actions == [Clear, DrawPodcast, DrawArtwork("A", Bitmap([0])), DrawArtwork("B", Bitmap([2])), Clear] &&
      t.state == State(Some("B"), false) && t.env == Env(Usage(13, 0), 3)
  {
    ScenarioCycles();
    var s1, e1 := State(None, false), Env(Usage(1, 0), 0);
    var s2, e2 := State(None, true), Env(Usage(3, 0), 0);
    var s3, e3 := State(Some("A"), true), Env(Usage(6, 0), 1);
    var e4 := Env(Usage(9, 0), 2);
    var s5, e5 := State(Some("B"), true), Env(Usage(12, 0), 3);
    var s6, e6 := State(Some("B"), false), Env(Usage(13, 0), 3);
    RunStep(Start, ScenarioWorld, Env(Usage(0, 0), 0), 6);
    RunStep(s1, ScenarioWorld, e1, 5);
    RunStep(s2, ScenarioWorld, e2, 4);
    RunStep(s3, ScenarioWorld, e3, 3);
    RunStep(s3, ScenarioWorld, e4, 2);
    RunStep(s5, ScenarioWorld, e5, 1);
    assert Run(s6, ScenarioWorld, e6, 0) == Trace(s6, e6, [], 0, None);
  }

  /**
   In the worked run, track A is reported on calls 3 to 8 and track B after
   that: the two cycles of A's stretch draw A's artwork exactly once, although
   A stops playing afterwards.
   */
  lemma ScenarioStretchOfA()
    ensures var t := Run(State(None, true), ScenarioWorld, Env(Usage(3, 0), 0), 2);
      t.crash.None? && ArtworkDraws(t.actions) == 1 && t.state.currentTrackId == Some("A")
  {
    var w := ScenarioWorld;
    ScenarioCycles();
    RunStep(State(None, true), w, Env(Usage(3, 0), 0), 2);
    RunStep(State(Some("A"), true), w, Env(Usage(6, 0), 1), 1);
    assert PlaysTrackFor(w, 3, 3 * 2, "A") by {
      forall i | 3 <= i < 9
        ensures PlaysTrack(w.reply(i), "A")
      {
        assert w.reply(i) == Answer(Some(TrackA));
      }
    }
    TrackRunDrawsAtMostOnce(State(None, true), w, Env(Usage(3, 0), 0), 2, "A");
  }

  /**
   The three checks of a cycle read three separate replies, so they can disagree:
   here the first check sees a track playing, the next two see nothing, and the
   cycle turns the clock on and clears the display.
   */
  lemma ChecksCanDisagree()
    ensures var c := Cycle(State(Some("A"), false),
                           World(i => if i == 0 then Answer(Some(TrackA)) else Answer(None), ScenarioDownload),
                           Env(Usage(0, 0), 0));
      c.seen == [Some(TrackA), None, None] && c.state == State(Some("A"), true) && c.actions == [Clear]
  {
  }
}
