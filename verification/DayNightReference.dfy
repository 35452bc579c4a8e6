/** The reference ratchet: what may move the night reference, and which scenes can never
    fire the brightening trigger against it.
  */
module DayNightReference {
  import opened DayNight
  import opened DayNightSafety
  import opened DayNightHeartbeat

  // ------------------------------------------------------------------
  // The ratchet

  lemma LitIsBack(dark: real, lit: real)
    requires 0.0 < dark && 0.0 < lit
    ensures dark / (dark / lit) == lit
  {
    var q := dark / lit;
    assert q * lit == dark;
    assert q > 0.0;
    assert dark / q == lit by { assert lit * q == dark; }
  }

  /** A night verdict of the silent probe may lower the reference, below half of what it
      was and to the level read just before the illuminator went off. */
  predicate LoweredByProof(c: Config, x: Sample, m: State, ref: real) {
    SilentNight(c, x, m) && 0.0 < ref < m.ref * 0.5 && ref == m.dLit
  }

  lemma SilentReference(c: Config, x: Sample, m: State)
    requires m.ref > 0.0 && m.enforceAt == 0 && !c.schedule && x.d > 0.0 && m.booted
    requires m.irVerdictAt != 0 && x.now >= m.irVerdictAt
    ensures var p := DecideSilent(c, x, m);
            p.st.ref == m.ref || LoweredByProof(c, x, m, p.st.ref)
  {
    if m.dLit > 0.0 && m.s > 0.0 { LitIsBack(m.s, m.dLit); }
  }

  lemma AnchorOnce(x: Sample, m: State)
    requires m.ref > 0.0
    ensures Anchor(x, m) == m
  {}

  lemma NightReference(c: Config, x: Sample, m: State)
    requires m.ref > 0.0
    ensures DecideNight(c, x, m).st.ref == m.ref
  {
    AnchorOnce(x, m);
    var (a, want) := NightTriggers(c, x, m);
    assert a.ref == m.ref;
    BeatHeart(c, x, a, want);
  }

  lemma DecideReference(c: Config, x: Sample, m: State)
    requires Coherent(m) && m.booted && m.cur == Night && m.ref > 0.0
    ensures var p := Decide(c, x, m);
            p.st.ref == m.ref || LoweredByProof(c, x, m, p.st.ref)
  {
    if m.enforceAt == 0 && !c.schedule && x.d > 0.0 {
      if m.irVerdictAt != 0 && x.now >= m.irVerdictAt {
        SilentReference(c, x, m);
      } else {
        NightReference(c, x, m);
      }
    }
  }

  lemma CommitLoudReference(c: Config, x: Sample, p: Plan)
    ensures var r := CommitLoud(c, x, p).0;
            r.cur == p.st.cur ==> r == p.st
  {}

  lemma CommitReference(c: Config, x: Sample, p: Plan)
    ensures var r := CommitPlan(c, x, p).0;
            r.cur == p.st.cur ==>
              r == p.st || r == SilentFailed(p.st) || r == StartSilent(x, p.st)
  {
    CommitLoudReference(c, x, p);
    CommitLoudReference(c, x, p.(st := SilentFailed(p.st), cmds := p.cmds + [IrOff(false)]));
  }

  /** In night an anchored reference stays as it is, or is lowered by a silent verdict; it
      is never raised, and nothing else moves it until night is left. */
  lemma ReferenceRatchet(c: Config, x: Sample, st: State, l: Ledger)
    requires Books(st, l) && 0 < x.now && c.enabled
    requires st.wasEnabled && st.booted && st.cur == Night && st.ref > 0.0
    ensures var m, r := Measured(c, x, st).0, Tick(c, x, st).0;
            r.cur == Night ==> r.ref == st.ref || LoweredByProof(c, x, m, r.ref)
  {
    MeasuredFrame(c, x, st);
    MeasuredBooks(c, x, st, l);
    var m, p := Measured(c, x, st).0, Planned(c, x, st);
    DecideBooks(c, x, m, PostAll(l, Measured(c, x, st).1));
    DecideReference(c, x, m);
    CommitReference(c, x, p);
  }

  // ------------------------------------------------------------------
  // A proven level cannot fire the brightening trigger again

  /** The scene has not been below `level` since the smoother was last seeded, and `level`
      is no lower than the bar. A hold may have been started by an unseeded smoother right
      after a forced cycle, but then no second cycle can follow in this dwell. */
  predicate Quiet(st: State, level: real) {
    && 0.0 < level && 0.0 < st.ref && JumpBar(st.ref) <= level
    && (st.s <= 0.0 || level <= st.s)
    && (st.trigSince != 0 ==> st.enforceAt == 0 && (st.verifyAt == 0 || st.verifyCyc >= 1))
  }

  predicate AtLeast(x: Sample, level: real) {
    x.d <= 0.0 || level <= x.d
  }

  /** The brightening trigger asks for a probe in this iteration. */
  predicate JumpAsks(c: Config, x: Sample, m: State) {
    var a := Anchor(x, m);
    var trig := Since(Brightened(a), a.trigSince, x.now);
    trig != 0 && x.now - trig >= c.probeConfirmS * 1000
  }

  lemma EmaHull(e: real, d: real, a: real, lo: real, hi: real)
    requires 0.0 <= a <= 1.0 && 0.0 < lo <= d <= hi && (e <= 0.0 || lo <= e <= hi)
    ensures lo <= Ema(e, d, a) <= hi
  {
    if e > 0.0 {
      var b := 1.0 - a;
      assert e + (d - e) * a == e * b + d * a;
      Weigh(e, a, b, lo, hi, d);
    }
  }

  lemma Product(p: real, q: real)
    requires 0.0 <= p && 0.0 <= q
    ensures 0.0 <= p * q
  {}

  lemma Weigh(e: real, a: real, b: real, lo: real, hi: real, d: real)
    requires 0.0 <= a && 0.0 <= b && a + b == 1.0 && lo <= e <= hi && lo <= d <= hi
    ensures lo <= e * b + d * a <= hi
  {
    Product(e - lo, b);
    Product(d - lo, a);
    Product(hi - e, b);
    Product(hi - d, a);
    assert lo * b + lo * a == lo && hi * b + hi * a == hi by {
      assert lo * b + lo * a == lo * (a + b) && hi * b + hi * a == hi * (a + b);
    }
  }

  lemma SmoothQuiet(c: Config, x: Sample, st: State, level: real)
    requires Quiet(st, level) && AtLeast(x, level)
    ensures var sm := Smooth(c, x, st);
            Quiet(sm, level) && (x.d > 0.0 ==> level <= sm.s)
  {
    SmoothFrame(c, x, st);
    if x.d > 0.0 {
      var top := if st.s > x.d then st.s else x.d;
      EmaHull(st.s, x.d, ALPHA, level, top);
      SmoothLevel(c, x, st);
    }
  }

  lemma SmoothLevel(c: Config, x: Sample, st: State)
    requires x.d > 0.0
    ensures Smooth(c, x, st).s == Ema(st.s, x.d, ALPHA)
  {
    var w := Window(c, x, Smoothed(x, st));
    assert w.s == Ema(st.s, x.d, ALPHA);
    assert ClipClock(x, w).s == w.s;
    assert Trend(c, x, ClipClock(x, w)).s == w.s;
  }

  /** After the gate: either the smoother still reads the scene, or it was just unseeded
      with no hold running. */
  predicate Gated(x: Sample, m: State, level: real) {
    && Quiet(m, level)
    && (m.enforceAt == 0 && x.d > 0.0 && m.s <= 0.0 ==> m.trigSince == 0 && (m.verifyAt == 0 || m.verifyCyc >= 1))
  }

  lemma GateReturnQuiet(x: Sample, st: State, level: real)
    requires Quiet(st, level) && Coherent(st) && (x.d > 0.0 ==> level <= st.s)
    ensures Gated(x, GateReturn(x, st).0, level)
  {}

  lemma GateVerifyQuiet(x: Sample, a: State, level: real)
    requires Gated(x, a, level)
    ensures Gated(x, GateVerify(x, a).0, level)
  {}

  lemma GateQuiet(x: Sample, st: State, level: real)
    requires Quiet(st, level) && Coherent(st) && (x.d > 0.0 ==> level <= st.s)
    ensures Gated(x, Gate(x, st).0, level)
  {
    GateReturnQuiet(x, st, level);
    GateVerifyQuiet(x, GateReturn(x, st).0, level);
  }

  lemma TriggersQuiet(c: Config, x: Sample, m: State, level: real)
    requires Gated(x, m, level) && m.enforceAt == 0 && x.d > 0.0 && 0 < x.now && c.Valid()
    ensures !JumpAsks(c, x, m)
    ensures Quiet(NightTriggers(c, x, m).0, level)
  {
    AnchorOnce(x, m);
    TriggersFrame(c, x, m);
    assert NightTriggers(c, x, m).0.s == m.s;
  }

  lemma SilentQuiet(c: Config, x: Sample, m: State, level: real)
    requires Gated(x, m, level) && m.enforceAt == 0 && !c.schedule && x.d > 0.0 && m.booted
    requires m.irVerdictAt != 0 && x.now >= m.irVerdictAt
    ensures Quiet(DecideSilent(c, x, m).st, level)
  {
    SilentReference(c, x, m);
  }

  lemma DecideQuiet(c: Config, x: Sample, m: State, level: real)
    requires Gated(x, m, level) && Coherent(m) && m.booted && m.cur == Night && 0 < x.now && c.Valid()
    ensures Quiet(Decide(c, x, m).st, level)
  {
    if m.enforceAt == 0 && !c.schedule && x.d > 0.0 {
      if m.irVerdictAt != 0 && x.now >= m.irVerdictAt {
        SilentQuiet(c, x, m, level);
      } else {
        TriggersQuiet(c, x, m, level);
        var (a, want) := NightTriggers(c, x, m);
        BeatHeart(c, x, a, want);
      }
    }
  }

  lemma MeasuredQuiet(c: Config, x: Sample, st: State, l: Ledger, level: real)
    requires Books(st, l) && 0 < x.now && st.wasEnabled && Quiet(st, level) && AtLeast(x, level)
    ensures var m := Measured(c, x, st).0; Gated(x, m, level) && m.booted == st.booted && m.cur == st.cur
  {
    var e := Receive(c, x, st);
    SmoothQuiet(c, x, e, level);
    EnableBooks(c, x, st, l);
    GateQuiet(x, Smooth(c, x, e), level);
    MeasuredFrame(c, x, st);
  }

  /** One iteration of a night dwell over a scene at or above `level`. */
  lemma TickQuiet(c: Config, x: Sample, st: State, l: Ledger, level: real)
    requires Books(st, l) && 0 < x.now && c.Valid() && c.enabled
    requires st.wasEnabled && st.booted && st.cur == Night
    requires Quiet(st, level) && AtLeast(x, level)
    ensures var m, r := Measured(c, x, st).0, Tick(c, x, st).0;
            && (m.enforceAt == 0 && x.d > 0.0 ==> !JumpAsks(c, x, m))
            && (r.cur == Night ==> Quiet(r, level) && r.booted)
  {
    MeasuredQuiet(c, x, st, l, level);
    MeasuredBooks(c, x, st, l);
    var m, p := Measured(c, x, st).0, Planned(c, x, st);
    if m.enforceAt == 0 && x.d > 0.0 { TriggersQuiet(c, x, m, level); }
    DecideQuiet(c, x, m, level);
    DecideBooks(c, x, m, PostAll(l, Measured(c, x, st).1));
    CommitReference(c, x, p);
    CommitQuiet(x, p, CommitPlan(c, x, p).0, level);
  }

  lemma CommitQuiet(x: Sample, p: Plan, r: State, level: real)
    requires Quiet(p.st, level) && p.st.booted
    requires r == p.st || r == SilentFailed(p.st) || r == StartSilent(x, p.st) || r.cur != p.st.cur
    ensures r.cur == p.st.cur ==> Quiet(r, level) && r.booted
  {}

  /** Every boundary of the run is still in night. */
  predicate StaysNight(st: State, steps: seq<Step>)
    decreases |steps|
  {
    && Run(st, steps).0.cur == Night
    && (steps == [] || StaysNight(st, steps[..|steps| - 1]))
  }

  /** No iteration of the run had the brightening trigger ask for a probe. */
  predicate NoJump(st: State, steps: seq<Step>)
    decreases |steps|
  {
    steps == [] ||
    var init, last := steps[..|steps| - 1], steps[|steps| - 1];
    var m := Measured(last.c, last.x, Run(st, init).0).0;
    && NoJump(st, init)
    && (m.cur == Night && m.enforceAt == 0 && last.x.d > 0.0 ==> !JumpAsks(last.c, last.x, m))
  }

  lemma QuietStep(a: State, l: Ledger, last: Step, level: real)
    requires Books(a, l) && 0 < last.x.now && last.c.Valid() && last.c.enabled
    requires a.wasEnabled && a.booted && a.cur == Night && Quiet(a, level) && AtLeast(last.x, level)
    ensures var m, r := Measured(last.c, last.x, a).0, Tick(last.c, last.x, a).0;
            && (m.enforceAt == 0 && last.x.d > 0.0 ==> !JumpAsks(last.c, last.x, m))
            && (r.cur == Night ==> Quiet(r, level) && r.booted && r.wasEnabled)
  {
    TickQuiet(last.c, last.x, a, l, level);
    TickBooks(last.c, last.x, a, l);
  }

  /** Enabled all the while, with the scene never below the level. */
  predicate LitThroughout(steps: seq<Step>, level: real)
    decreases |steps|
  {
    steps == []
    || (steps[|steps| - 1].c.enabled && AtLeast(steps[|steps| - 1].x, level) && LitThroughout(steps[..|steps| - 1], level))
  }

  /** Once a level is proven night, a scene that stays at or above it, or anywhere above
      half of it, never satisfies the brightening trigger again in that dwell, forced
      cycles, failed probes, schedule interludes and unreadable ticks included. */
  lemma {:induction false} ProvenLevelStaysQuiet(st: State, l: Ledger, steps: seq<Step>, from: int, level: real)
    requires Books(st, l) && Clocked(steps, from)
    requires st.wasEnabled && st.booted && Quiet(st, level) && StaysNight(st, steps)
    requires LitThroughout(steps, level)
    ensures NoJump(st, steps)
    ensures var r := Run(st, steps).0; Quiet(r, level) && r.wasEnabled && r.booted
    decreases |steps|
  {
    if steps != [] {
      var init, last := steps[..|steps| - 1], steps[|steps| - 1];
      ProvenLevelStaysQuiet(st, l, init, from, level);
      RunBooks(st, l, init, from);
      QuietStep(Run(st, init).0, PostAll(l, Run(st, init).1), last, level);
    }
  }

  /** A silent verdict that lowered the reference leaves a state whose bar that very level
      keeps quiet. */
  lemma LoweredIsQuiet(c: Config, x: Sample, m: State)
    requires m.ref > 0.0 && m.enforceAt == 0 && m.booted && !c.schedule && x.d > 0.0
    requires m.irVerdictAt != 0 && x.now >= m.irVerdictAt
    requires DecideSilent(c, x, m).st.ref != m.ref
    ensures var r := DecideSilent(c, x, m).st; Quiet(r, JumpBar(r.ref)) && r.ref == m.dLit
  {
    SilentReference(c, x, m);
  }

  /** So does a probe that fell back to night from an unclipped level. */
  lemma RevertedIsQuiet(c: Config, x: Sample, st: State)
    requires st.cur == Day && st.preProbe > 0.0 && !Clipped(st.preProbeHr)
    ensures var r := SwitchTo(c, x, st, Night);
            Quiet(r, JumpBar(r.ref)) && r.ref == st.preProbe
  {}

  // ------------------------------------------------------------------
  // Where such states come from, and what follows

  /** An iteration that lowers the reference leaves a state whose bar its own new
      reference keeps quiet. */
  lemma LoweringTick(c: Config, x: Sample, st: State, l: Ledger)
    requires Books(st, l) && 0 < x.now && c.enabled
    requires st.wasEnabled && st.booted && st.cur == Night && st.ref > 0.0
    requires var r := Tick(c, x, st).0; r.cur == Night && r.ref != st.ref
    ensures var m, r := Measured(c, x, st).0, Tick(c, x, st).0;
            && r.ref == m.dLit && r.ref < st.ref * 0.5
            && Quiet(r, JumpBar(r.ref)) && r.wasEnabled && r.booted
  {
    ReferenceRatchet(c, x, st, l);
    MeasuredFrame(c, x, st);
    MeasuredBooks(c, x, st, l);
    TickBooks(c, x, st, l);
    var m, p := Measured(c, x, st).0, Planned(c, x, st);
    CommitReference(c, x, p);
    assert p == DecideSilent(c, x, m);
    LoweredIsQuiet(c, x, m);
    SettledCommit(c, x, p);
  }

  lemma SettledCommit(c: Config, x: Sample, p: Plan)
    requires !p.wantProbe && p.target == p.st.cur
    ensures CommitPlan(c, x, p).0 == p.st
  {}

  /** After the verdict that lowered it, a scene that stays at or above half the new
      reference asks for no jump probe for as long as the dwell lasts. */
  lemma LoweredStaysQuiet(c: Config, x: Sample, st: State, l: Ledger, steps: seq<Step>)
    requires Books(st, l) && 0 < x.now && c.enabled
    requires st.wasEnabled && st.booted && st.cur == Night && st.ref > 0.0
    requires var r := Tick(c, x, st).0;
             && r.cur == Night && r.ref != st.ref
             && Clocked(steps, x.now) && StaysNight(r, steps) && LitThroughout(steps, JumpBar(r.ref))
    ensures NoJump(Tick(c, x, st).0, steps)
  {
    LoweringTick(c, x, st, l);
    TickBooks(c, x, st, l);
    var (r, cmds) := Tick(c, x, st);
    ProvenLevelStaysQuiet(r, PostAll(l, cmds), steps, x.now, JumpBar(r.ref));
  }

  /** An iteration that falls back from day to night with an unclipped level at hand takes
      that level as its reference. */
  lemma RevertingTick(c: Config, x: Sample, st: State, l: Ledger)
    requires Books(st, l) && 0 < x.now && c.enabled && st.wasEnabled && st.booted
    requires st.cur == Day && st.preProbe > 0.0 && !Clipped(st.preProbeHr)
    requires Tick(c, x, st).0.cur == Night
    ensures var r := Tick(c, x, st).0;
            r.ref == st.preProbe && Quiet(r, JumpBar(r.ref)) && r.wasEnabled && r.booted
  {
    MeasuredFrame(c, x, st);
    MeasuredBooks(c, x, st, l);
    TickBooks(c, x, st, l);
    var (m, gate) := Measured(c, x, st);
    var p := Decide(c, x, m);
    DecideBooks(c, x, m, PostAll(l, gate));
    DayPlanned(c, x, m);
    DayCommit(c, x, p);
    RevertedIsQuiet(c, x, p.st);
  }

  /** A plan made in day either forgets the level from before the probe and stays, or
      keeps it; it never asks for a probe. */
  lemma DayPlanned(c: Config, x: Sample, m: State)
    requires m.cur == Day && m.booted && Coherent(m)
    ensures var p := Decide(c, x, m);
            && p.st.cur == Day && !p.wantProbe && p.st.booted
            && (p.target == Day || (p.st.preProbe == m.preProbe && p.st.preProbeHr == m.preProbeHr))
  {}

  lemma DayCommit(c: Config, x: Sample, p: Plan)
    requires p.st.cur == Day && !p.wantProbe
    ensures var r := CommitPlan(c, x, p).0;
            r == p.st || (p.target != Day && r == SwitchTo(c, x, p.st, p.target))
  {}

  /** After falling back, a scene that stays at or above half the level from before the probe
      asks for no jump probe for as long as the dwell lasts. */
  lemma RevertedStaysQuiet(c: Config, x: Sample, st: State, l: Ledger, steps: seq<Step>)
    requires Books(st, l) && 0 < x.now && c.enabled && st.wasEnabled && st.booted
    requires st.cur == Day && st.preProbe > 0.0 && !Clipped(st.preProbeHr)
    requires var r := Tick(c, x, st).0;
             && r.cur == Night
             && Clocked(steps, x.now) && StaysNight(r, steps) && LitThroughout(steps, JumpBar(st.preProbe))
    ensures NoJump(Tick(c, x, st).0, steps)
  {
    RevertingTick(c, x, st, l);
    TickBooks(c, x, st, l);
    var (r, cmds) := Tick(c, x, st);
    ProvenLevelStaysQuiet(r, PostAll(l, cmds), steps, x.now, JumpBar(r.ref));
  }

  // ------------------------------------------------------------------
  // A branch that is dead

  /** With both ratio thresholds at the same value the comparison never ends undecided. */
  lemma RatioAlwaysDecides(c: Config, x: Sample, m: State)
    ensures Judge(c, x, m) != Undecided
  {}
}
