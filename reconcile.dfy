/**
 The main loop of main.py (lines 141-171): each cycle asks whether something is
 playing, then whether it is a podcast, then which track it is, each with its
 own query, and acts on the display.  Its state is the id of the last artwork
 drawn (`current_track_id`) and the `show_clock` flag read by the clock thread.
 `Cycle` and `Run` specify one cycle and a bounded number of cycles over the
 oracles; `Reconciler` is the loop itself, proved to follow them.
 */
module Reconcile {
  import opened External
  import opened PlaybackQueries

  /** Extra sleep after clearing an idle display, on top of the per-cycle sleep. */
  const IdleSleep: nat := 10
  const PollSleep: nat := 2

  datatype State = State(currentTrackId: Option<string>, showClock: bool)

  /** Both start unset: `show_clock = False` (line 46), `current_track_id = None` (line 147). */
  const Start: State := State(None, false)

  /** The remote side: the service's replies and the artwork downloads. */
  datatype World = World(reply: nat -> Reply, download: (nat, string) -> Download)

  /** How much of the remote side has been consumed. */
  datatype Env = Env(spotify: Usage, gets: nat)

  /** How a cycle ends: by sleeping, or by an exception that leaves `main`. */
  datatype Outcome = Slept(seconds: nat) | Crashed(error: Raised)

  /**
   One cycle: the new state and usage, the records answered by the cycle's
   queries in order (`seen`), the display actions and the outcome.
   */
  datatype CycleResult = CycleResult(state: State, env: Env, seen: seq<Option<Playback>>, actions: seq<Action>, outcome: Outcome)

  function Queried(e: Env, q: Fetched): Env
  {
    e.(spotify := Spend(e.spotify, q))
  }

  /**
   One pass of the `while True` body: the first check decides between clearing
   an idle display and going on; the second between the podcast image and
   reading the track; the track read between clearing, drawing new artwork and
   doing nothing.  An exception from any query or from the download ends the cycle.
   */
  function Cycle(st: State, w: World, e: Env): CycleResult
  {
    var q1 := Query(w.reply, e.spotify.calls);
    var e1 := Queried(e, q1);
    match q1.result
    case Err(x) => CycleResult(st, e1, [], [], Crashed(x))
    case Ok(p1) =>
      if !Playing(p1) then
        CycleResult(st.(showClock := false), e1, [p1], [Clear], Slept(IdleSleep + PollSleep))
      else
        var st1 := st.(showClock := true);
        var q2 := Query(w.reply, e1.spotify.calls);
        var e2 := Queried(e1, q2);
        match q2.result
        case Err(x) => CycleResult(st1, e2, [p1], [], Crashed(x))
        case Ok(p2) =>
          if Podcast(p2) then
            CycleResult(st1, e2, [p1, p2], [DrawPodcast], Slept(PollSleep))
          else
            var q3 := Query(w.reply, e2.spotify.calls);
            var e3 := Queried(e2, q3);
            match q3.result
            case Err(x) => CycleResult(st1, e3, [p1, p2], [], Crashed(x))
            case Ok(p3) =>
              var f := ReadTrack(p3, w.download, e3.gets);
              var e4 := e3.(gets := f.gets);
              match f.result
              case Err(x) => CycleResult(st1, e4, [p1, p2, p3], [], Crashed(x))
              case Ok(NothingPlaying) => CycleResult(st1, e4, [p1, p2, p3], [Clear], Slept(PollSleep))
              case Ok(Artwork(None, _)) => CycleResult(st1, e4, [p1, p2, p3], [Clear], Slept(PollSleep))
              case Ok(Artwork(Some(id), image)) =>
                if Some(id) != st.currentTrackId then
                  CycleResult(st1.(currentTrackId := Some(id)), e4, [p1, p2, p3], [DrawArtwork(id, image)], Slept(PollSleep))
                else
                  CycleResult(st1, e4, [p1, p2, p3], [], Slept(PollSleep))
  }

  /**
   Every cycle makes at least one and at most six service calls (three queries,
   each retried at most once), rebuilds at most three clients, downloads at most
   one image and sends at most one action to the display; `current_track_id`
   changes exactly when artwork is drawn, and then to the drawn track's id.
   */
  lemma CycleBounds(st: State, w: World, e: Env)
    ensures var c := Cycle(st, w, e);
      |c.seen| <= 3 && (c.outcome.Slept? ==> 1 <= |c.seen|) &&
      e.spotify.calls + 1 <= c.env.spotify.calls <= e.spotify.calls + 6 &&
      e.spotify.rebuilds <= c.env.spotify.rebuilds <= e.spotify.rebuilds + 3 &&
      e.gets <= c.env.gets <= e.gets + 1 &&
      |c.actions| <= 1 &&
      (c.state.currentTrackId != st.currentTrackId ==>
         c.state.currentTrackId.Some? && |c.actions| == 1 &&
         c.actions[0].DrawArtwork? && c.actions[0].trackId == c.state.currentTrackId.value) &&
      (|c.actions| == 1 && c.actions[0].DrawArtwork? ==>
         c.state.currentTrackId == Some(c.actions[0].trackId) != st.currentTrackId)
  {
  }

  /**
   The records a cycle saw are the answers of its queries, in order: the first
   check's query starts at the cycle's first call, each later one right after
   the calls of the query before it, and `seen` is empty exactly when the first
   query raised.
   */
  lemma SeenAreReplies(st: State, w: World, e: Env)
    ensures var c := Cycle(st, w, e);
      var q1 := Query(w.reply, e.spotify.calls);
      var q2 := Query(w.reply, e.spotify.calls + q1.used);
      var q3 := Query(w.reply, e.spotify.calls + q1.used + q2.used);
      (|c.seen| == 0 <==> q1.result.Err?) &&
      (|c.seen| >= 1 ==> q1.result == Ok(c.seen[0])) &&
      (|c.seen| >= 2 ==> q2.result == Ok(c.seen[1])) &&
      (|c.seen| == 3 ==> q3.result == Ok(c.seen[2]))
  {
  }

  /** The result of running cycles until the bound or the first exception. */
  datatype Trace = Trace(state: State, env: Env, actions: seq<Action>, cycles: nat, crash: Option<Raised>)

  /**
   Up to `n` cycles from `st`: the loop stops early only on an exception.
   */
  function Run(st: State, w: World, e: Env, n: nat): (t: Trace)
    ensures t.cycles <= n && (t.crash.None? ==> t.cycles == n) && (t.crash.Some? ==> 1 <= t.cycles)
    decreases n, 0
  {
    if n == 0 then Trace(st, e, [], 0, None) else Then(Cycle(st, w, e), w, n - 1)
  }

  /** A run whose first cycle was `c`, followed, unless `c` raised, by up to `m` more cycles. */
  function Then(c: CycleResult, w: World, m: nat): (t: Trace)
    ensures t.cycles <= m + 1 && (t.crash.None? ==> t.cycles == m + 1) && (t.crash.Some? ==> 1 <= t.cycles)
    decreases m, 1
  {
    match c.outcome
    case Crashed(x) => Trace(c.state, c.env, c.actions, 1, Some(x))
    case Slept(_) =>
      var t := Run(c.state, w, c.env, m);
      Trace(t.state, t.env, c.actions + t.actions, t.cycles + 1, t.crash)
  }

  /**
   No retry is unbounded: `k` cycles make between `k` and `6k` service calls,
   at most `3k` client rebuilds, at most `k` downloads and at most `k` display actions.
   */
  lemma {:induction false} RunConsumption(st: State, w: World, e: Env, n: nat)
    ensures var t := Run(st, w, e, n);
      |t.actions| <= t.cycles &&
      e.spotify.calls + t.cycles <= t.env.spotify.calls <= e.spotify.calls + 6 * t.cycles &&
      e.spotify.rebuilds <= t.env.spotify.rebuilds <= e.spotify.rebuilds + 3 * t.cycles &&
      e.gets <= t.env.gets <= e.gets + t.cycles
    decreases n
  {
    if n > 0 {
      var c := Cycle(st, w, e);
      CycleBounds(st, w, e);
      if c.outcome.Slept? {
        RunConsumption(c.state, w, c.env, n - 1);
      }
    }
  }

  /** A run of at least one cycle is its first cycle followed, unless that cycle raised, by the rest of the run. */
  lemma RunStep(st: State, w: World, e: Env, n: nat)
    requires n > 0
    ensures var c := Cycle(st, w, e); var t := Run(c.state, w, c.env, n - 1);
      Run(st, w, e, n) ==
        if c.outcome.Crashed? then Trace(c.state, c.env, c.actions, 1, Some(c.outcome.error))
        else Trace(t.state, t.env, c.actions + t.actions, t.cycles + 1, t.crash)
  {
  }

  /**
   A run one cycle longer: if the first `k` cycles raised, nothing more
   happens; otherwise one more cycle runs from where they left off.
   */
  lemma {:induction false} RunSnoc(st: State, w: World, e: Env, k: nat)
    ensures var t := Run(st, w, e, k);
      Run(st, w, e, k + 1) ==
        if t.crash.Some? then t
        else var c := Cycle(t.state, w, t.env);
          Trace(c.state, c.env, t.actions + c.actions, k + 1, if c.outcome.Crashed? then Some(c.outcome.error) else None)
    decreases k
  {
    var c := Cycle(st, w, e);
    if k == 0 {
      assert c.actions + [] == c.actions;
    } else if c.outcome.Slept? {
      var r := Run(c.state, w, c.env, k - 1);
      RunSnoc(c.state, w, c.env, k - 1);
      if r.crash.None? {
        var d := Cycle(r.state, w, r.env);
        assert c.actions + (r.actions + d.actions) == (c.actions + r.actions) + d.actions;
      }
    }
  }

  /** Once a run has raised, running it for more cycles changes nothing. */
  lemma {:induction false} RunStops(st: State, w: World, e: Env, k: nat, m: nat)
    requires Run(st, w, e, k).crash.Some? && k <= m
    ensures Run(st, w, e, m) == Run(st, w, e, k)
    decreases k
  {
    var c := Cycle(st, w, e);
    if c.outcome.Slept? {
      RunStops(c.state, w, c.env, k - 1, m - 1);
    }
  }

  /** The number of artwork draws among `a`. */
  function ArtworkDraws(a: seq<Action>): (n: nat)
    ensures n <= |a|
  {
    if a == [] then 0 else (if a[0].DrawArtwork? then 1 else 0) + ArtworkDraws(a[1..])
  }

  lemma {:induction false} ArtworkDrawsAppend(a: seq<Action>, b: seq<Action>)
    ensures ArtworkDraws(a + b) == ArtworkDraws(a) + ArtworkDraws(b)
  {
    if a == [] {
      assert a + b == b;
    } else {
      assert (a + b)[0] == a[0] && (a + b)[1..] == a[1..] + b;
      ArtworkDrawsAppend(a[1..], b);
    }
  }

  class Reconciler {
    var currentTrackId: Option<string>
    var showClock: bool

    function Current(): State
      reads this
    {
      State(currentTrackId, showClock)
    }

    static function Consumed(svc: SpotifyService, http: HttpSession): Env
      reads svc, http
    {
      Env(svc.Used(), http.gets)
    }

    constructor ()
      ensures Current() == Start
    {
      currentTrackId := None;
      showClock := false;
    }

    /** One pass of the loop body (main.py:155-171). */
    method RunCycle(svc: SpotifyService, http: HttpSession, dev: Display) returns (outcome: Outcome)
      modifies this, svc, http, dev
      ensures var c := Cycle(old(Current()), World(svc.reply, http.download), old(Consumed(svc, http)));
        Current() == c.state && Consumed(svc, http) == c.env &&
        dev.log == old(dev.log) + c.actions && outcome == c.outcome
    {
      var playing := IsPlaying(svc);
      if playing.Err? {
        return Crashed(playing.error);
      }
      if !playing.value {
        showClock := false;
        dev.Perform(Clear);
        outcome := Slept(IdleSleep + PollSleep);
      } else {
        showClock := true;
        var podcast := IsPodcast(svc);
        if podcast.Err? {
          return Crashed(podcast.error);
        }
        if podcast.value {
          dev.Perform(DrawPodcast);
        } else {
          var track := GetCurrentTrackImage(svc, http);
          if track.Err? {
            return Crashed(track.error);
          }
          match track.value
          case NothingPlaying =>
            dev.Perform(Clear);
          case Artwork(id, image) =>
            if id.None? {
              dev.Perform(Clear);
            } else if id != currentTrackId {
              currentTrackId := id;
              dev.Perform(DrawArtwork(id.value, image));
            }
        }
        outcome := Slept(PollSleep);
      }
    }
    /**
     One pass of the loop after `k` completed cycles of a run of `n` from `s0`
     and `e0` that sent `done` to the display: the first `k + 1` cycles of the
     run are what happened, and if the cycle raised, so is the whole run.
     */
    method Step(ghost s0: State, ghost e0: Env, ghost w: World, n: nat, ghost done: seq<Action>, k: nat, svc: SpotifyService, http: HttpSession, dev: Display)
      returns (outcome: Outcome, ghost sent: seq<Action>)
      requires k < n && w == World(svc.reply, http.download)
      requires Run(s0, w, e0, k) == Trace(Current(), Consumed(svc, http), done, k, None)
      modifies this, svc, http, dev
      ensures dev.log == old(dev.log) + sent
      ensures outcome.Slept? ==> Run(s0, w, e0, k + 1) == Trace(Current(), Consumed(svc, http), done + sent, k + 1, None)
      ensures outcome.Crashed? ==> Run(s0, w, e0, n) == Trace(Current(), Consumed(svc, http), done + sent, k + 1, Some(outcome.error))
    {
      ghost var c := Cycle(Current(), w, Consumed(svc, http));
      RunSnoc(s0, w, e0, k);
      if c.outcome.Crashed? {
        RunStops(s0, w, e0, k + 1, n);
      }
      outcome := RunCycle(svc, http, dev);
      sent := c.actions;
    }

    /**
     The `while True` loop (main.py:154-171) stopped after `n` cycles, or
     earlier when a cycle raises: it does what `Run` specifies.
     */
    method Loop(svc: SpotifyService, http: HttpSession, dev: Display, n: nat) returns (cycles: nat, crash: Option<Raised>)
      modifies this, svc, http, dev
      ensures var t := Run(old(Current()), World(svc.reply, http.download), old(Consumed(svc, http)), n);
        Current() == t.state && Consumed(svc, http) == t.env && dev.log == old(dev.log) + t.actions &&
        cycles == t.cycles && crash == t.crash
    {
      ghost var s0, e0, w, log0 := Current(), Consumed(svc, http), World(svc.reply, http.download), dev.log;
      ghost var done: seq<Action> := [];
      cycles := 0;
      while cycles < n
        invariant cycles <= n && dev.log == log0 + done
        invariant Run(s0, w, e0, cycles) == Trace(Current(), Consumed(svc, http), done, cycles, None)
      {
        var outcome, sent := Step(s0, e0, w, n, done, cycles, svc, http, dev);
        done := done + sent;
        cycles := cycles + 1;
        if outcome.Crashed? {
          return cycles, Some(outcome.error);
        }
      }
      crash := None;
    }
  }
}
