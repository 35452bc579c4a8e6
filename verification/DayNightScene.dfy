/** What the automaton remembers about the scene, followed through its resets: the three
    smoothed levels never leave the hull of the readings, and the sustained minimum is a
    level the scene was really held under.
  */
module DayNightScene {
  import opened DayNight
  import opened DayNightSafety
  import opened DayNightHeartbeat
  import opened DayNightReference

  // ------------------------------------------------------------------
  // The hull of the readings

  /** Not seeded (or not readable), or inside. */
  predicate Within(v: real, lo: real, hi: real) {
    v <= 0.0 || lo <= v <= hi
  }

  predicate Hull(st: State, lo: real, hi: real) {
    Within(st.s, lo, hi) && Within(st.scene.emaFast, lo, hi) && Within(st.scene.emaSlow, lo, hi)
  }

  /** A phase keeps the hull and does not arm the trend by itself. */
  predicate HullKept(a: State, b: State, lo: real, hi: real) {
    && (Hull(a, lo, hi) ==> Hull(b, lo, hi))
    && (a.scene.trendSince == 0 ==> b.scene.trendSince == 0)
  }

  lemma AlphaUnit(dtMs: int, tauMs: int)
    requires 0 < dtMs
    ensures 0.0 <= EmaAlpha(dtMs, tauMs) <= 1.0
  {
    if tauMs > 0 {
      assert dtMs as real / tauMs as real >= 0.0;
    }
  }

  lemma SmoothHull(c: Config, x: Sample, st: State, lo: real, hi: real)
    requires Hull(st, lo, hi) && 0.0 < lo && Within(x.d, lo, hi)
    ensures HullKept(st, Smooth(c, x, st), lo, hi)
  {
    if x.d > 0.0 {
      EmaHull(st.s, x.d, ALPHA, lo, hi);
      SmoothLevel(c, x, st);
      var w := ClipClock(x, Window(c, x, Smoothed(x, st)));
      assert w.scene.emaFast == st.scene.emaFast && w.scene.emaSlow == st.scene.emaSlow;
      assert w.scene.trendSince == st.scene.trendSince;
      AlphaUnit(c.Interval(), TREND_FAST_MS);
      AlphaUnit(c.Interval(), TREND_SLOW_MS);
      EmaHull(w.scene.emaFast, x.d, EmaAlpha(c.Interval(), TREND_FAST_MS), lo, hi);
      EmaHull(w.scene.emaSlow, x.d, EmaAlpha(c.Interval(), TREND_SLOW_MS), lo, hi);
    }
  }

  lemma GateReturnHull(x: Sample, st: State, lo: real, hi: real)
    ensures HullKept(st, GateReturn(x, st).0, lo, hi)
  {}

  lemma GateVerifyHull(x: Sample, st: State, lo: real, hi: real)
    ensures HullKept(st, GateVerify(x, st).0, lo, hi)
  {}

  lemma GateHull(x: Sample, st: State, lo: real, hi: real)
    ensures HullKept(st, Gate(x, st).0, lo, hi)
  {
    GateReturnHull(x, st, lo, hi);
    GateVerifyHull(x, GateReturn(x, st).0, lo, hi);
  }

  lemma SilentHull(c: Config, x: Sample, m: State, lo: real, hi: real)
    ensures HullKept(m, DecideSilent(c, x, m).st, lo, hi)
  {}

  lemma AudibleHull(c: Config, x: Sample, m: State, lo: real, hi: real)
    ensures HullKept(m, DecideAudible(c, x, m).st, lo, hi)
  {}

  lemma DayFrame(c: Config, x: Sample, m: State)
    ensures var p := DecideDay(c, x, m); p.cmds == [] && p.st.scene == m.scene && p.st.s == m.s
  {}

  lemma DayHull(c: Config, x: Sample, m: State, lo: real, hi: real)
    ensures HullKept(m, DecideDay(c, x, m).st, lo, hi)
  {
    DayFrame(c, x, m);
  }

  lemma BootHull(c: Config, x: Sample, m: State, lo: real, hi: real)
    ensures HullKept(m, DecideBoot(c, x, m).st, lo, hi)
  {}

  /** The night rule alone writes the trend clock, and only under the trend condition. */
  lemma NightHull(c: Config, x: Sample, m: State, lo: real, hi: real)
    ensures Hull(m, lo, hi) ==> Hull(DecideNight(c, x, m).st, lo, hi)
    ensures !Trending(c, m) ==> DecideNight(c, x, m).st.scene.trendSince == 0
  {
    var (a, want) := NightTriggers(c, x, m);
    assert a.scene.emaFast == m.scene.emaFast && a.scene.emaSlow == m.scene.emaSlow && a.s == m.s;
    assert Trending(c, Anchor(x, m)) == Trending(c, m);
    BeatHeart(c, x, a, want);
  }

  lemma RunningHull(c: Config, x: Sample, m: State, lo: real, hi: real)
    ensures Hull(m, lo, hi) ==> Hull(DecideRunning(c, x, m).st, lo, hi)
    ensures !Trending(c, m) && m.scene.trendSince == 0 ==> DecideRunning(c, x, m).st.scene.trendSince == 0
  {
    SilentHull(c, x, m, lo, hi);
    AudibleHull(c, x, m, lo, hi);
    DayHull(c, x, m, lo, hi);
    NightHull(c, x, m, lo, hi);
  }

  lemma DecideHull(c: Config, x: Sample, m: State, lo: real, hi: real)
    ensures Hull(m, lo, hi) ==> Hull(Decide(c, x, m).st, lo, hi)
    ensures !Trending(c, m) && m.scene.trendSince == 0 ==> Decide(c, x, m).st.scene.trendSince == 0
  {
    if m.enforceAt == 0 && !c.schedule && x.d > 0.0 {
      if m.booted {
        RunningHull(c, x, m, lo, hi);
      } else {
        BootHull(c, x, m, lo, hi);
      }
    }
  }

  lemma CommitLoudHull(c: Config, x: Sample, p: Plan, lo: real, hi: real)
    ensures HullKept(p.st, CommitLoud(c, x, p).0, lo, hi)
  {}

  lemma CommitHull(c: Config, x: Sample, p: Plan, lo: real, hi: real)
    ensures HullKept(p.st, CommitPlan(c, x, p).0, lo, hi)
  {
    CommitLoudHull(c, x, p, lo, hi);
    CommitLoudHull(c, x, p.(st := SilentFailed(p.st), cmds := p.cmds + [IrOff(false)]), lo, hi);
  }

  lemma MeasuredHull(c: Config, x: Sample, st: State, lo: real, hi: real)
    requires Hull(st, lo, hi) && 0.0 < lo && Within(x.d, lo, hi)
    ensures HullKept(st, Measured(c, x, st).0, lo, hi)
  {
    var e := Enable(x, Receive(c, x, st));
    assert HullKept(st, e, lo, hi);
    SmoothHull(c, x, e, lo, hi);
    GateHull(x, Smooth(c, x, e), lo, hi);
  }

  /** One iteration over a reading inside keeps every level inside. */
  lemma TickHull(c: Config, x: Sample, st: State, lo: real, hi: real)
    requires Hull(st, lo, hi) && 0.0 < lo && Within(x.d, lo, hi)
    ensures Hull(Tick(c, x, st).0, lo, hi)
    ensures c.enabled ==> Hull(Measured(c, x, st).0, lo, hi)
  {
    if c.enabled {
      MeasuredHull(c, x, st, lo, hi);
      DecideHull(c, x, Measured(c, x, st).0, lo, hi);
      CommitHull(c, x, Planned(c, x, st), lo, hi);
    }
  }

  /** Over every run, whatever its resets, forced cycles, probes and configuration changes,
      the smoothed level and both averages stay between the lowest and the highest reading,
      or are not seeded. */
  lemma {:induction false} HullRun(st: State, steps: seq<Step>, lo: real, hi: real)
    requires Hull(st, lo, hi) && 0.0 < lo
    requires forall i :: 0 <= i < |steps| ==> Within(steps[i].x.d, lo, hi)
    ensures Hull(Run(st, steps).0, lo, hi)
    decreases |steps|
  {
    if steps != [] {
      var init, last := steps[..|steps| - 1], steps[|steps| - 1];
      HullRun(st, init, lo, hi);
      TickHull(last.c, last.x, Run(st, init).0, lo, hi);
    }
  }

  // ------------------------------------------------------------------
  // A steady scene never arms the trend

  /** The trend condition holds in no iteration of the run. */
  predicate NeverTrends(st: State, steps: seq<Step>)
    decreases |steps|
  {
    steps == [] ||
    var init, last := steps[..|steps| - 1], steps[|steps| - 1];
    && NeverTrends(st, init)
    && (last.c.enabled ==> !Trending(last.c, Measured(last.c, last.x, Run(st, init).0).0))
  }

  /** The fast average cannot fall a quarter below the slow one inside such a hull. */
  lemma TickCalm(c: Config, x: Sample, st: State, lo: real, hi: real)
    requires Hull(st, lo, hi) && 0.0 < lo && 3.0 * hi <= 4.0 * lo && Within(x.d, lo, hi)
    requires st.scene.trendSince == 0
    ensures Tick(c, x, st).0.scene.trendSince == 0
    ensures c.enabled ==> !Trending(c, Measured(c, x, st).0)
  {
    if c.enabled {
      MeasuredHull(c, x, st, lo, hi);
      var m := Measured(c, x, st).0;
      assert !Trending(c, m);
      DecideHull(c, x, m, lo, hi);
      CommitHull(c, x, Planned(c, x, st), lo, hi);
    }
  }

  lemma {:induction false} CalmRun(st: State, steps: seq<Step>, lo: real, hi: real)
    requires Hull(st, lo, hi) && st.scene.trendSince == 0 && 0.0 < lo && 3.0 * hi <= 4.0 * lo
    requires forall i :: 0 <= i < |steps| ==> Within(steps[i].x.d, lo, hi)
    ensures NeverTrends(st, steps) && Run(st, steps).0.scene.trendSince == 0
    decreases |steps|
  {
    if steps != [] {
      var init, last := steps[..|steps| - 1], steps[|steps| - 1];
      CalmRun(st, init, lo, hi);
      HullRun(st, init, lo, hi);
      TickCalm(last.c, last.x, Run(st, init).0, lo, hi);
    }
  }

  /** Readings that stay within a factor of 4/3 of each other never arm the trend, in any
      run from start-up and under any configuration. */
  lemma SteadySceneNeverTrends(from: int, steps: seq<Step>, lo: real, hi: real)
    requires 0.0 < lo && 3.0 * hi <= 4.0 * lo
    requires forall i :: 0 <= i < |steps| ==> Within(steps[i].x.d, lo, hi)
    ensures NeverTrends(Start(from), steps)
    ensures Run(Start(from), steps).0.scene.trendSince == 0
  {
    CalmRun(Start(from), steps, lo, hi);
  }

  // ------------------------------------------------------------------
  // What an iteration does to the scene

  /** The board is moved to a decided mode; the counter half of a forced cycle is not. */
  predicate Moves(cmd: Command) {
    cmd.Drive? && cmd.why != Counter
  }

  predicate Moved(cmds: seq<Command>)
    decreases |cmds|
  {
    cmds != [] && (Moves(cmds[|cmds| - 1]) || Moved(cmds[..|cmds| - 1]))
  }

  lemma {:induction false} MovedConcat(a: seq<Command>, b: seq<Command>)
    ensures Moved(a + b) <==> Moved(a) || Moved(b)
    decreases |b|
  {
    if b == [] {
      assert a + b == a;
    } else {
      MovedConcat(a, b[..|b| - 1]);
      assert (a + b)[..|a + b| - 1] == a + b[..|b| - 1];
    }
  }

  lemma MovedOne(cmd: Command)
    ensures Moved([cmd]) <==> Moves(cmd)
  {
    assert [cmd][..0] == [];
    assert !Moved([cmd][..0]);
  }

  /** The scene is forgotten in this iteration: the automaton is disabled, the board is
      moved to a decided mode, boot frames its measurement, or a silent probe says night. */
  predicate Forgets(c: Config, x: Sample, st: State) {
    !c.enabled ||
    var m := Measured(c, x, st).0;
    Moved(Tick(c, x, st).1) || BootMeasures(c, x, m) || SilentNight(c, x, m)
  }

  /** The window part of two scenes is the same. */
  predicate SameWindow(a: Scene, b: Scene) {
    a.sustMin == b.sustMin && a.winMax == b.winMax && a.winAt == b.winAt
  }

  lemma GateReturnScene(x: Sample, st: State)
    ensures var (a, cmds) := GateReturn(x, st);
            a.scene == if Moved(cmds) then NO_SCENE else st.scene
  {
    MovedOne(Drive(st.cur, Return, x.now));
  }

  lemma GateVerifyScene(x: Sample, st: State)
    ensures var (a, cmds) := GateVerify(x, st);
            a.scene == st.scene && !Moved(cmds)
  {
    MovedOne(Drive(Opposite(st.cur), Counter, x.now));
  }

  lemma GateScene(x: Sample, st: State)
    ensures var (a, cmds) := Gate(x, st);
            a.scene == if Moved(cmds) then NO_SCENE else st.scene
  {
    var (a, c1) := GateReturn(x, st);
    GateReturnScene(x, st);
    GateVerifyScene(x, a);
    MovedConcat(c1, GateVerify(x, a).1);
  }

  /** What a decision does to the scene: forget it for a reason, or keep its window. */
  predicate SceneDecided(c: Config, x: Sample, m: State, p: Plan) {
    && !Moved(p.cmds)
    && SameWindow(p.st.scene, if BootMeasures(c, x, m) || SilentNight(c, x, m) then NO_SCENE else m.scene)
  }

  lemma SilentScene(c: Config, x: Sample, m: State)
    ensures var p := DecideSilent(c, x, m);
            !Moved(p.cmds) && p.st.scene == if SaysNight(Judge(c, x, m)) then NO_SCENE else m.scene
  {
    MovedOne(IrOn(c.hasIrCmd && x.onOk));
  }

  lemma AudibleScene(c: Config, x: Sample, m: State)
    ensures var p := DecideAudible(c, x, m); !Moved(p.cmds) && p.st.scene == m.scene
  {}

  lemma DayScene(c: Config, x: Sample, m: State)
    ensures var p := DecideDay(c, x, m); !Moved(p.cmds) && p.st.scene == m.scene
  {
    DayFrame(c, x, m);
  }

  lemma NightScene(c: Config, x: Sample, m: State)
    ensures var p := DecideNight(c, x, m); !Moved(p.cmds) && SameWindow(p.st.scene, m.scene)
  {
    var (a, want) := NightTriggers(c, x, m);
    assert SameWindow(a.scene, m.scene);
    BeatHeart(c, x, a, want);
  }

  lemma RunningScene(c: Config, x: Sample, m: State)
    ensures var p := DecideRunning(c, x, m);
            && !Moved(p.cmds)
            && SameWindow(p.st.scene, if m.irVerdictAt != 0 && x.now >= m.irVerdictAt && SaysNight(Judge(c, x, m))
                                      then NO_SCENE else m.scene)
  {
    SilentScene(c, x, m);
    AudibleScene(c, x, m);
    DayScene(c, x, m);
    NightScene(c, x, m);
  }

  lemma ScheduleScene(c: Config, x: Sample, m: State)
    ensures var p := DecideSchedule(c, x, m); !Moved(p.cmds) && p.st.scene == m.scene
  {
    MovedOne(IrOn(c.hasIrCmd && x.onOk));
  }

  lemma DecideScene(c: Config, x: Sample, m: State)
    ensures SceneDecided(c, x, m, Decide(c, x, m))
  {
    if m.enforceAt != 0 {
    } else if c.schedule {
      ScheduleScene(c, x, m);
    } else if x.d > 0.0 && m.booted {
      RunningScene(c, x, m);
    }
  }

  lemma CommitLoudScene(c: Config, x: Sample, p: Plan)
    requires !Moved(p.cmds)
    ensures var (r, cmds) := CommitLoud(c, x, p);
            r.scene == if Moved(cmds) then NO_SCENE else p.st.scene
  {
    MovedOne(Drive(Day, Probe, x.now));
    MovedConcat(p.cmds, [Drive(Day, Probe, x.now)]);
    MovedOne(Drive(p.target, Commit, x.now));
    MovedConcat(p.cmds, [Drive(p.target, Commit, x.now)]);
  }

  lemma CommitScene(c: Config, x: Sample, p: Plan)
    requires !Moved(p.cmds)
    ensures var (r, cmds) := CommitPlan(c, x, p);
            r.scene == if Moved(cmds) then NO_SCENE else p.st.scene
  {
    MovedOne(IrOff(x.offOk));
    MovedConcat(p.cmds, [IrOff(x.offOk)]);
    if !MaySilent(c, x, p) {
      CommitLoudScene(c, x, p);
    } else if !x.offOk {
      CommitLoudScene(c, x, p.(st := SilentFailed(p.st), cmds := p.cmds + [IrOff(false)]));
    }
  }

  // ------------------------------------------------------------------
  // The sustained minimum

  /** A smoothed level, when it was seen, and the confirmation window then in force. */
  datatype Level = Level(now: int, s: real, confirmS: int)

  function Feed(levels: seq<Level>): Scene
    decreases |levels|
  {
    if levels == [] then NO_SCENE
    else
      var last := levels[|levels| - 1];
      Slide(last.confirmS, last.now, last.s, Feed(levels[..|levels| - 1]))
  }

  /** The smoothed level this iteration arrives at from a readable sample. */
  function Reading(x: Sample, st: State): real {
    Ema(if st.wasEnabled then st.s else -1.0, x.d, ALPHA)
  }

  /** The levels of the current scene after one more iteration: an enabling starts afresh,
      an unreadable sample adds nothing, and forgetting drops them all. */
  function SeenTick(c: Config, x: Sample, st: State, before: seq<Level>): seq<Level> {
    if Forgets(c, x, st) then []
    else
      var kept := if st.wasEnabled then before else [];
      if x.d <= 0.0 then kept else kept + [Level(x.now, Reading(x, st), c.probeConfirmS)]
  }

  /** The smoothed levels a run has seen since it last forgot the scene. */
  function Seen(st: State, steps: seq<Step>): seq<Level>
    decreases |steps|
  {
    if steps == [] then []
    else
      var init, last := steps[..|steps| - 1], steps[|steps| - 1];
      SeenTick(last.c, last.x, Run(st, init).0, Seen(st, init))
  }

  lemma SmoothScene(c: Config, x: Sample, st: State)
    ensures SameWindow(Smooth(c, x, st).scene,
                       if x.d <= 0.0 then st.scene
                       else Slide(c.probeConfirmS, x.now, Ema(st.s, x.d, ALPHA), st.scene))
  {
    if x.d > 0.0 {
      var w := Window(c, x, Smoothed(x, st));
      assert w.scene == Slide(c.probeConfirmS, x.now, Ema(st.s, x.d, ALPHA), st.scene);
      assert ClipClock(x, w).scene == w.scene;
      assert SameWindow(Trend(c, x, ClipClock(x, w)).scene, w.scene);
    }
  }

  /** The scene an enabled iteration starts from. */
  function Entered(st: State): Scene {
    if st.wasEnabled then st.scene else NO_SCENE
  }

  lemma MeasuredScene(c: Config, x: Sample, st: State)
    ensures var (m, gate) := Measured(c, x, st);
            SameWindow(m.scene,
                       if Moved(gate) then NO_SCENE
                       else if x.d <= 0.0 then Entered(st)
                       else Slide(c.probeConfirmS, x.now, Reading(x, st), Entered(st)))
  {
    var e := Enable(x, Receive(c, x, st));
    assert e.scene == Entered(st) && e.s == if st.wasEnabled then st.s else -1.0;
    SmoothScene(c, x, e);
    GateScene(x, Smooth(c, x, e));
  }

  lemma TickScene(c: Config, x: Sample, st: State)
    ensures SameWindow(Tick(c, x, st).0.scene,
                       if Forgets(c, x, st) then NO_SCENE
                       else if x.d <= 0.0 then Entered(st)
                       else Slide(c.probeConfirmS, x.now, Reading(x, st), Entered(st)))
  {
    if c.enabled {
      MeasuredScene(c, x, st);
      var (m, gate) := Measured(c, x, st);
      DecideScene(c, x, m);
      CommitScene(c, x, Decide(c, x, m));
      MovedConcat(gate, CommitPlan(c, x, Decide(c, x, m)).1);
    }
  }

  lemma FeedLast(levels: seq<Level>, last: Level)
    ensures Feed(levels + [last]) == Slide(last.confirmS, last.now, last.s, Feed(levels))
  {
    assert (levels + [last])[..|levels + [last]| - 1] == levels;
  }

  lemma SeenStep(c: Config, x: Sample, st: State, before: seq<Level>)
    requires SameWindow(st.scene, Feed(before))
    ensures SameWindow(Tick(c, x, st).0.scene, Feed(SeenTick(c, x, st, before)))
  {
    TickScene(c, x, st);
    var kept := if st.wasEnabled then before else [];
    FeedLast(kept, Level(x.now, Reading(x, st), c.probeConfirmS));
  }

  /** The loop's window after every run is the fold of the levels seen since it last forgot
      the scene. */
  lemma {:induction false} SceneIsFeed(st: State, steps: seq<Step>)
    requires SameWindow(st.scene, NO_SCENE)
    ensures SameWindow(Run(st, steps).0.scene, Feed(Seen(st, steps)))
    decreases |steps|
  {
    if steps != [] {
      var init, last := steps[..|steps| - 1], steps[|steps| - 1];
      SceneIsFeed(st, init);
      SeenStep(last.c, last.x, Run(st, init).0, Seen(st, init));
    }
  }

  lemma ReadingPositive(x: Sample, st: State)
    requires x.d > 0.0
    ensures Reading(x, st) > 0.0
  {
    var e := if st.wasEnabled then st.s else -1.0;
    var lo, hi := if 0.0 < e < x.d then e else x.d, if e > x.d then e else x.d;
    EmaHull(e, x.d, ALPHA, lo, hi);
  }

  predicate Positive(levels: seq<Level>) {
    forall k :: 0 <= k < |levels| ==> levels[k].s > 0.0
  }

  lemma {:induction false} SeenPositive(st: State, steps: seq<Step>)
    ensures Positive(Seen(st, steps))
    decreases |steps|
  {
    if steps != [] {
      var init, last := steps[..|steps| - 1], steps[|steps| - 1];
      SeenPositive(st, init);
      if last.x.d > 0.0 { ReadingPositive(last.x, Run(st, init).0); }
    }
  }

  /** From index i to index j the scene was at or below v. */
  predicate HeldBelow(levels: seq<Level>, i: int, j: int, v: real) {
    0 <= i <= j < |levels| && forall k :: i <= k <= j ==> levels[k].s <= v
  }

  lemma {:induction false} FeedWasHeld(levels: seq<Level>) returns (open: int, i: int, j: int)
    requires Positive(levels)
    ensures var w := Feed(levels);
            && (levels != [] ==> HeldBelow(levels, open, |levels| - 1, w.winMax)
                                 && levels[open].now == w.winAt && w.winMax > 0.0)
            && (w.sustMin > 0.0 ==> HeldBelow(levels, i, j, w.sustMin)
                                    && levels[j].now - levels[i].now >= levels[j].confirmS * 1000)
    decreases |levels|
  {
    open, i, j := 0, 0, 0;
    if levels != [] {
      var init, n := levels[..|levels| - 1], |levels| - 1;
      open, i, j := FeedWasHeld(init);
      assert forall k :: 0 <= k < n ==> init[k] == levels[k];
      var before, after := Feed(init), Feed(levels);
      if n == 0 { open := 0; }
      if levels[n].now - levels[open].now >= levels[n].confirmS * 1000 {
        if after.sustMin != before.sustMin { i, j := open, n; }
        open := n;
      }
    }
  }

  /** In the state after every run from start-up the sustained minimum, if there is one, is a
      level the scene stayed at or below over a whole confirmation window since the scene
      was last forgotten; a dip shorter than that never enters it. The open window's
      maximum bounds every level since the window was opened. */
  lemma SustainedMinimumWasHeld(from: int, steps: seq<Step>) returns (open: int, i: int, j: int)
    ensures var w, levels := Run(Start(from), steps).0.scene, Seen(Start(from), steps);
            && (levels != [] ==> HeldBelow(levels, open, |levels| - 1, w.winMax) && levels[open].now == w.winAt)
            && (w.sustMin > 0.0 ==> HeldBelow(levels, i, j, w.sustMin)
                                    && levels[j].now - levels[i].now >= levels[j].confirmS * 1000)
  {
    SceneIsFeed(Start(from), steps);
    SeenPositive(Start(from), steps);
    open, i, j := FeedWasHeld(Seen(Start(from), steps));
  }
}
