/** The day/night automaton of src/daynight.c, one loop iteration at a time.

    The loop keeps about forty local scalars. Here they are one value, `State`,
    and one iteration is `Tick`, the composition of the phases the loop body
    goes through: enable or disable, the smoother, the readback gate, the
    decision and the commit. Times are milliseconds on the monotonic clock and 0
    stands for "not set", exposures are exact reals and -1.0 stands for "none".

    Board commands have effects outside the process, so a phase returns the
    commands it issued, in order, beside the new state.
  */
module DayNight {

  datatype Mode = Unknown | Day | Night

  const STABLE_N: int := 4
  const STABLE_MAX_MS: int := 120000
  const IR_MAX_FAILS: int := 2
  const ALPHA: real := 0.3
  const STABLE_PCT: real := 0.1
  const VERIFY_MS: int := 18000
  const VERIFY_HOLD_MS: int := 5000
  const VERIFY_MAX_CYCLES: int := 1
  const SETTLE_MS: int := 8000
  const REF_DELAY_MS: int := 30000
  const BOOT_SETTLE_MS: int := 5000
  const TRANSITION_MS: int := 5000
  const MIN_HEADROOM: int := 8
  const RATIO_NIGHT: real := 2.0
  const RATIO_DAY: real := 2.0
  const MOVED_MARGIN: real := 0.9
  const GAIN_FLOOR: real := 256.0
  const TREND_FAST_MS: int := 180000
  const TREND_SLOW_MS: int := 3600000

  /** The tunables one iteration snapshots. */
  datatype Config = Config(
    enabled: bool,
    schedule: bool,
    dayGain: real,
    nightGain: real,
    dayConfirmS: int,
    probeMinGapS: int,
    probeConfirmS: int,
    heartbeatS: int,
    heartbeatMaxS: int,
    bootProbe: bool,
    intervalMs: int,
    hasIrCmd: bool)
  {
    /** The loader's clamps on the keys the automaton divides by or waits on. */
    predicate Valid() {
      && 1 <= dayConfirmS && 60 <= probeMinGapS && 1 <= probeConfirmS
      && 300 <= heartbeatS && 300 <= heartbeatMaxS
    }

    /** An inverted band is ordered on the snapshot. */
    function DayBar(): real {
      if dayGain > nightGain then nightGain else dayGain
    }

    function NightBar(): real {
      if dayGain > nightGain then dayGain else nightGain
    }

    function Interval(): int {
      if intervalMs > 0 then intervalMs else 2000
    }
  }

  /** Everything one iteration learns from outside. */
  datatype Sample = Sample(
    now: int,
    d: real,              // exposure index; <= 0 unreadable
    ratioKnown: bool,     // the integration-time ratio was readable
    headroom: int,        // AE reserve; < 0 unknown
    isp: Mode,            // mode the ISP itself reports
    runningMode: bool,    // persisted running_mode: true = night
    calendar: Mode,       // what the calendar says
    dawnS: int,           // seconds to dawn; < 0 none
    request: bool,        // /control asked for a probe since the last tick
    offOk: bool,          // would "irprobe off" succeed now
    onOk: bool)           // would "irprobe on" succeed now

  datatype Why = Probe | Commit | Counter | Return

  datatype Command =
    | Drive(mode: Mode, why: Why, at: int)
    | IrOff(ok: bool)
    | IrOn(ok: bool)

  /** What is remembered about the scene since the last verdict or switch: the sustained
      minimum with its tumbling window, and the trend pair. */
  datatype Scene = Scene(sustMin: real, winMax: real, winAt: int, emaFast: real, emaSlow: real, trendSince: int)

  const NO_SCENE: Scene := Scene(-1.0, -1.0, 0, -1.0, -1.0, 0)

  /** What closing the IR-cut filter costs here, and the night level waiting to be costed. */
  datatype Cost = Cost(filterCost: real, irNightAt: real, irNightMs: int)

  const NO_COST: Cost := Cost(-1.0, -1.0, 0)

  datatype State = State(
    cur: Mode,
    modeSince: int,
    s: real,
    stableN: int,
    ref: real,
    refDue: int,
    trigSince: int,
    darkSince: int,
    lastProbe: int,
    verdictAt: int,
    preProbe: real,
    preProbeHr: int,
    hbAt: int,
    irVerdictAt: int,
    dLit: real,
    dLitHr: int,
    scene: Scene,
    clipSince: int,
    clipHeld: bool,
    wasEnabled: bool,
    verifyAt: int,
    verifyCyc: int,
    enforceAt: int,
    booted: bool,
    bootAt: int,
    irFails: int,
    irUnusable: bool,
    probeReq: bool,
    cost: Cost)

  function Start(now: int): State {
    State(Unknown, 0, -1.0, 0, -1.0, 0, 0, 0, 0, 0, -1.0, -1, 0, 0, -1.0, -1,
          NO_SCENE, 0, false, false, 0, 0, 0, false, now, 0, false, false, NO_COST)
  }

  // ------------------------------------------------------------------
  // Small expressions of the source

  predicate Clipped(headroom: int) {
    0 <= headroom < MIN_HEADROOM
  }

  function EmaAlpha(dtMs: int, tauMs: int): real {
    if tauMs <= 0 then 1.0
    else
      var a := dtMs as real / tauMs as real;
      if a > 1.0 then 1.0 else a
  }

  /** Can the brightening trigger see anything below the reference? */
  predicate Sighted(x: Sample, ref: real) {
    x.ratioKnown || ref <= 0.0 || ref * 0.5 > GAIN_FLOOR
  }

  /** The level below which a scene counts as brightened. */
  function JumpBar(ref: real): real {
    ref * 0.5
  }

  function Opposite(m: Mode): Mode {
    if m == Night then Day else Night
  }

  function Persisted(x: Sample): Mode {
    if x.runningMode then Night else Day
  }

  predicate DwellOver(st: State, now: int) {
    st.modeSince == 0 || now - st.modeSince >= TRANSITION_MS
  }

  function ForgetScene(st: State): State {
    st.(scene := NO_SCENE)
  }

  /** Give the light back for a silent probe that will never be judged. */
  function Abandon(c: Config, x: Sample, st: State): (State, seq<Command>) {
    if st.irVerdictAt == 0 then (st, [])
    else (st.(irVerdictAt := 0, dLit := -1.0, dLitHr := -1), [IrOn(c.hasIrCmd && x.onOk)])
  }

  // ------------------------------------------------------------------
  // Phases

  function Disable(c: Config, x: Sample, st: State): (State, seq<Command>) {
    var r := st.(wasEnabled := false, cur := Unknown, s := -1.0, stableN := 0,
                 ref := -1.0, refDue := 0, trigSince := 0, darkSince := 0,
                 verdictAt := 0, hbAt := 0, modeSince := 0, preProbe := -1.0, preProbeHr := -1);
    var (a, cmds) := Abandon(c, x, ForgetScene(r));
    (a.(verifyAt := 0, enforceAt := 0, verifyCyc := 0), cmds)
  }

  function Enable(x: Sample, st: State): State {
    if st.wasEnabled then st
    else
      var r := st.(wasEnabled := true, cur := Unknown, s := -1.0, stableN := 0,
                   ref := -1.0, refDue := 0, trigSince := 0, darkSince := 0,
                   verdictAt := 0, hbAt := 0, modeSince := 0);
      var r := r.(irVerdictAt := 0, dLit := -1.0, dLitHr := -1,
                  verifyAt := 0, enforceAt := 0, verifyCyc := 0,
                  lastProbe := 0, preProbe := -1.0, preProbeHr := -1);
      ForgetScene(r).(
        cost := NO_COST, irFails := 0, irUnusable := false, booted := false, bootAt := x.now)
  }

  function Ema(e: real, d: real, a: real): real {
    if e > 0.0 then e + (d - e) * a else d
  }

  /** The tumbling window whose maximum may enter the sustained minimum. */
  function Slide(confirmS: int, now: int, s: real, w: Scene): Scene {
    var blank := w.winMax <= 0.0;
    var top := if blank || s > w.winMax then s else w.winMax;
    var since := if blank then now else w.winAt;
    var closed := now - since >= confirmS * 1000;
    w.(sustMin := if closed && (w.sustMin <= 0.0 || top < w.sustMin) then top else w.sustMin,
       winMax := if closed then s else top,
       winAt := if closed then now else since)
  }

  function Window(c: Config, x: Sample, st: State): State {
    st.(scene := Slide(c.probeConfirmS, x.now, st.s, st.scene))
  }

  function ClipClock(x: Sample, st: State): State {
    var since := if Clipped(x.headroom) && st.stableN >= STABLE_N
                 then (if st.clipSince == 0 then x.now else st.clipSince) else 0;
    st.(clipSince := since, clipHeld := since != 0 && x.now - since >= STABLE_MAX_MS)
  }

  /** The trend pair is fed only while the optics stand still in night. */
  predicate TrendFed(x: Sample, st: State) {
    && st.cur == Night && st.irVerdictAt == 0 && st.enforceAt == 0
    && (!Clipped(x.headroom) || st.clipHeld)
  }

  function Trend(c: Config, x: Sample, st: State): State {
    if !TrendFed(x, st) then st
    else st.(scene := st.scene.(emaFast := Ema(st.scene.emaFast, x.d, EmaAlpha(c.Interval(), TREND_FAST_MS)),
                                emaSlow := Ema(st.scene.emaSlow, x.d, EmaAlpha(c.Interval(), TREND_SLOW_MS))))
  }

  function Smoothed(x: Sample, st: State): State {
    var s := Ema(st.s, x.d, ALPHA);
    var near := (if x.d > s then x.d - s else s - x.d) < s * STABLE_PCT;
    st.(s := s, stableN := if near then st.stableN + 1 else 0)
  }

  function Smooth(c: Config, x: Sample, st: State): State {
    if x.d <= 0.0 then st
    else Trend(c, x, ClipClock(x, Window(c, x, Smoothed(x, st))))
  }

  /** Second half of a forced transition: back to the decided mode. */
  function GateReturn(x: Sample, st: State): (State, seq<Command>) {
    if st.enforceAt == 0 || x.now < st.enforceAt then (st, [])
    else
      var r := st.(enforceAt := 0, verifyAt := x.now + VERIFY_MS,
                   verdictAt := if st.verdictAt != 0 then x.now + SETTLE_MS else 0,
                   s := -1.0, stableN := 0);
      (ForgetScene(r), [Drive(st.cur, Return, x.now)])
  }

  /** Believe a switch once the ISP reports it; overdue, force one transition through
      the other mode, once per switch. */
  function GateVerify(x: Sample, st: State): (State, seq<Command>) {
    var confirmed := st.verifyAt != 0 && x.isp != Unknown && x.isp == st.cur;
    var due := !confirmed && st.verifyAt != 0 && x.now >= st.verifyAt && st.irVerdictAt == 0;
    var force := due && x.isp != Unknown && st.verifyCyc < VERIFY_MAX_CYCLES;
    (st.(verifyAt := if confirmed || due then 0 else st.verifyAt,
         verifyCyc := if confirmed then 0 else if force then st.verifyCyc + 1 else st.verifyCyc,
         enforceAt := if force then x.now + VERIFY_HOLD_MS else st.enforceAt,
         s := if force then -1.0 else st.s, stableN := if force then 0 else st.stableN),
     if force then [Drive(Opposite(st.cur), Counter, x.now)] else [])
  }

  function Gate(x: Sample, st: State): (State, seq<Command>) {
    var (a, c1) := GateReturn(x, st);
    var (b, c2) := GateVerify(x, a);
    (b, c1 + c2)
  }

  /** What the decision hands to the commit. */
  datatype Plan = Plan(st: State, cmds: seq<Command>, target: Mode, force: bool,
                       wantProbe: bool, noSilent: bool)

  function Hold(st: State): Plan {
    Plan(st, [], st.cur, false, false, false)
  }

  function Aim(st: State, m: Mode, force: bool): Plan {
    Hold(st).(target := m, force := force)
  }

  function DecideSchedule(c: Config, x: Sample, st: State): Plan {
    var (a, cmds) := Abandon(c, x, st);
    Hold(a).(cmds := cmds, target := if x.calendar == Unknown then st.cur else x.calendar)
  }

  function DecideBlind(x: Sample, st: State): Plan {
    if !st.booted && x.now - st.bootAt >= STABLE_MAX_MS then
      Aim(st.(booted := true), Persisted(x), true)
    else Hold(st)
  }

  /** Boot measures by an ordinary probe, which by construction starts from night. */
  function BootFraming(st: State): State {
    ForgetScene(st.(booted := true, cur := Night, ref := -1.0, refDue := 0))
  }

  function DecideBoot(c: Config, x: Sample, st: State): Plan {
    if x.now - st.bootAt < BOOT_SETTLE_MS
       || (st.stableN < STABLE_N && x.now - st.bootAt < STABLE_MAX_MS) then Hold(st)
    else if !c.bootProbe && x.headroom != 0 then
      Aim(st.(booted := true), Persisted(x), true)
    else
      // the plain target keeps the mode held before the framing
      Plan(BootFraming(st), [], st.cur, false, true, true)
  }

  /** The reference moves down only on proof, and only below the bar. */
  function Lowered(ref: real, lit: real): real {
    if ref > 0.0 && lit > 0.0 && lit < JumpBar(ref) then lit else ref
  }

  /** What comparing the dark reading with the lit one said. */
  datatype Verdict = Useless | RailedLit | IlluminatorCarries | RoomUnknown | VetoedByCost | RoomLit | Pegged | Undecided

  function Ratio(dLit: real, dark: real): real {
    if dLit > 0.0 && dark > 0.0 then dark / dLit else -1.0
  }

  function Judge(c: Config, x: Sample, st: State): Verdict {
    var r := Ratio(st.dLit, st.s);
    if r <= 0.0 then Useless
    else if Clipped(st.dLitHr) then RailedLit
    else if r >= RATIO_NIGHT then IlluminatorCarries
    else if x.headroom < 0 then RoomUnknown
    else if r <= RATIO_DAY && x.headroom >= MIN_HEADROOM then
      if st.cost.filterCost > 0.0 && st.s / r * st.cost.filterCost > c.NightBar() then VetoedByCost else RoomLit
    else if x.headroom < MIN_HEADROOM then Pegged
    else Undecided
  }

  predicate SaysNight(v: Verdict) {
    v in {RailedLit, IlluminatorCarries, VetoedByCost, Pegged}
  }

  /** Light first, judge after. A night answer re-anchors window, trend and heartbeat, and
      the two that are proof of night at the lit level may lower the reference. */
  function Judged(c: Config, x: Sample, st: State, v: Verdict): State {
    var r := Ratio(st.dLit, st.s);
    var lit := if r > 0.0 then st.s / r else -1.0;
    var night, room := SaysNight(v), v == RoomLit;
    st.(irVerdictAt := 0, dLit := -1.0, dLitHr := -1, s := -1.0, stableN := 0,
        ref := if v in {IlluminatorCarries, VetoedByCost} then Lowered(st.ref, lit) else st.ref,
        trigSince := if night then 0 else st.trigSince,
        hbAt := if night then x.now + c.heartbeatS * 1000 else st.hbAt,
        scene := if night then NO_SCENE else st.scene,
        cost := if room then st.cost.(irNightAt := lit, irNightMs := x.now) else st.cost)
  }

  /** An answer that is no answer escalates to the audible probe. */
  function DecideSilent(c: Config, x: Sample, st: State): Plan {
    var v := Judge(c, x, st);
    var escalate := !SaysNight(v) && v != RoomLit;
    Plan(Judged(c, x, st, v), [IrOn(c.hasIrCmd && x.onOk)],
         if v == RoomLit then Day else st.cur, false, escalate, escalate)
  }

  function DecideAudible(c: Config, x: Sample, st: State): Plan {
    if x.isp != Unknown && x.isp != st.cur && (st.verifyAt != 0 || st.enforceAt != 0) then Hold(st)
    else if st.s < c.DayBar() then Hold(st.(verdictAt := 0, preProbe := -1.0, preProbeHr := -1))
    else Aim(st.(verdictAt := 0), Night, true)
  }

  function Since(cond: bool, since: int, now: int): int {
    if cond then (if since == 0 then now else since) else 0
  }

  /** What a night reading becomes in day mode, learnt from a ratio verdict undone at once. */
  function FilterCost(c: Config, x: Sample, st: State): real {
    if st.cost.irNightAt > 0.0 && st.s > 0.0
       && x.now - st.cost.irNightMs <= c.dayConfirmS * 1000 + VERIFY_MS && !Clipped(x.headroom)
    then st.s / st.cost.irNightAt else st.cost.filterCost
  }

  function DecideDay(c: Config, x: Sample, st: State): Plan {
    var since := Since(st.s > c.NightBar() || Clipped(x.headroom), st.darkSince, x.now);
    if st.verdictAt != 0 then Hold(st)
    else if since != 0 && x.now - since >= c.dayConfirmS * 1000 then
      Aim(st.(darkSince := since, cost := Cost(FilterCost(c, x, st), -1.0, 0)),
          Night, false)
    else Hold(st.(darkSince := since))
  }

  /** First anchor of the reference after entering night. */
  function Anchor(x: Sample, st: State): State {
    if st.ref < 0.0 && st.refDue != 0 && x.now >= st.refDue
       && (st.stableN >= STABLE_N || x.now >= st.refDue + STABLE_MAX_MS)
       && !(Clipped(x.headroom) && !st.clipHeld)
    then st.(ref := st.s) else st
  }

  predicate Brightened(st: State) {
    st.ref > 0.0 && st.s < JumpBar(st.ref)
  }

  predicate Trending(c: Config, st: State) {
    && c.hasIrCmd && !st.irUnusable
    && st.scene.emaFast > 0.0 && st.scene.emaSlow > 0.0 && st.scene.emaFast < st.scene.emaSlow * 0.75
  }

  predicate Flat(st: State) {
    st.ref > 0.0 && st.scene.sustMin > 0.0 && !(st.scene.sustMin < st.ref * MOVED_MARGIN)
  }

  predicate Deferred(c: Config, x: Sample, st: State) {
    && Flat(st) && Sighted(x, st.ref)
    && st.lastProbe != 0 && x.now - st.lastProbe < c.heartbeatMaxS * 1000
  }

  /** The triggers that stand before the heartbeat. */
  function NightTriggers(c: Config, x: Sample, st: State): (State, bool) {
    var a := Anchor(x, st);
    var trig := Since(Brightened(a), a.trigSince, x.now);
    var trend := Since(Trending(c, a), a.scene.trendSince, x.now);
    var jump := trig != 0 && x.now - trig >= c.probeConfirmS * 1000;
    var asked := a.probeReq && !jump;
    var drift := trend != 0 && !jump && !asked && x.now - trend >= c.probeConfirmS * 1000;
    (a.(trigSince := trig, scene := a.scene.(trendSince := trend), probeReq := if asked then false else a.probeReq,
        hbAt := if a.hbAt == 0 then x.now + c.heartbeatS * 1000 else a.hbAt),
     jump || asked || drift)
  }

  /** The heartbeat: due means asking, unless nothing moved and the limit is not reached. */
  function Heartbeat(c: Config, x: Sample, st: State, want: bool): Plan {
    var due := x.now >= st.hbAt;
    var later := due && Deferred(c, x, st);
    Plan(st.(hbAt := if later then x.now + c.heartbeatS * 1000 else st.hbAt), [], st.cur, false,
         want || (due && !later), false)
  }

  function DecideNight(c: Config, x: Sample, st: State): Plan {
    var (a, want) := NightTriggers(c, x, st);
    Heartbeat(c, x, a, want)
  }

  /** Auto mode once boot has been decided: verdicts first, then the mode's own rule. */
  function DecideRunning(c: Config, x: Sample, st: State): Plan {
    if st.irVerdictAt != 0 && x.now >= st.irVerdictAt then DecideSilent(c, x, st)
    else if st.verdictAt != 0 && x.now >= st.verdictAt then DecideAudible(c, x, st)
    else if st.cur == Day then DecideDay(c, x, st)
    else if st.cur == Night then DecideNight(c, x, st)
    else Hold(st)
  }

  function Decide(c: Config, x: Sample, st: State): Plan {
    if st.enforceAt != 0 then Hold(st)
    else if c.schedule then DecideSchedule(c, x, st)
    else if x.d <= 0.0 then DecideBlind(x, st)
    else if !st.booted then DecideBoot(c, x, st)
    else DecideRunning(c, x, st)
  }

  predicate MaySilent(c: Config, x: Sample, p: Plan) {
    && p.wantProbe && !p.noSilent && p.st.cur == Night && p.st.irVerdictAt == 0
    && c.hasIrCmd && !p.st.irUnusable && DwellOver(p.st, x.now)
  }

  predicate MayAudible(c: Config, x: Sample, p: Plan) {
    && p.wantProbe && p.st.cur == Night && p.st.irVerdictAt == 0
    && (p.st.lastProbe == 0 || x.now - p.st.lastProbe >= c.probeMinGapS * 1000)
    && DwellOver(p.st, x.now)
  }

  predicate MaySwitch(x: Sample, p: Plan) {
    && p.target != p.st.cur && p.target != Unknown
    && (p.force || DwellOver(p.st, x.now))
  }

  function StartSilent(x: Sample, st: State): State {
    st.(dLit := st.s, dLitHr := x.headroom, irVerdictAt := x.now + SETTLE_MS, irFails := 0,
        s := -1.0, stableN := 0)
  }

  function SilentFailed(st: State): State {
    st.(irFails := st.irFails + 1, irUnusable := st.irUnusable || st.irFails + 1 >= IR_MAX_FAILS)
  }

  function StartAudible(x: Sample, st: State): State {
    var r := st.(preProbe := if st.s > 0.0 then st.s else st.ref, preProbeHr := x.headroom,
                 cur := Day, modeSince := x.now, lastProbe := x.now,
                 verdictAt := x.now + SETTLE_MS, irVerdictAt := 0, dLit := -1.0,
                 trigSince := 0, darkSince := 0, hbAt := 0,
                 verifyAt := x.now + VERIFY_MS, verifyCyc := 0, enforceAt := 0,
                 s := -1.0, stableN := 0);
    ForgetScene(r)
  }

  function NightDeadline(c: Config, x: Sample): int {
    var due := x.now + c.heartbeatS * 1000;
    if x.dawnS >= 0 && x.now + x.dawnS * 1000 < due then x.now + x.dawnS * 1000 else due
  }

  function SwitchTo(c: Config, x: Sample, st: State, m: Mode): State {
    var reverted := st.cur == Day && m == Night && st.preProbe > 0.0;
    var kept := reverted && !Clipped(st.preProbeHr);
    var r := st.(cur := m, modeSince := x.now, trigSince := 0, darkSince := 0, verdictAt := 0,
                 irVerdictAt := 0, dLit := -1.0,
                 verifyAt := x.now + VERIFY_MS, verifyCyc := 0, enforceAt := 0,
                 ref := if kept then st.preProbe else -1.0,
                 refDue := if m == Night && !kept then x.now + REF_DELAY_MS else 0,
                 hbAt := if m == Night then NightDeadline(c, x) else 0,
                 preProbe := -1.0, preProbeHr := -1, s := -1.0, stableN := 0);
    ForgetScene(r)
  }

  function CommitLoud(c: Config, x: Sample, p: Plan): (State, seq<Command>) {
    if MayAudible(c, x, p) then
      (StartAudible(x, p.st), p.cmds + [Drive(Day, Probe, x.now)])
    else if MaySwitch(x, p) then
      (SwitchTo(c, x, p.st, p.target), p.cmds + [Drive(p.target, Commit, x.now)])
    else (p.st, p.cmds)
  }

  function CommitPlan(c: Config, x: Sample, p: Plan): (State, seq<Command>) {
    if !MaySilent(c, x, p) then CommitLoud(c, x, p)
    else if x.offOk then (StartSilent(x, p.st), p.cmds + [IrOff(true)])
    else CommitLoud(c, x, p.(st := SilentFailed(p.st), cmds := p.cmds + [IrOff(false)]))
  }

  /** A request from /control is accepted only where a silent probe exists. */
  function Receive(c: Config, x: Sample, st: State): State {
    if x.request && c.hasIrCmd && !st.irUnusable then st.(probeReq := true) else st
  }

  /** An enabled iteration up to the decision. */
  function Measured(c: Config, x: Sample, st: State): (State, seq<Command>) {
    Gate(x, Smooth(c, x, Enable(x, Receive(c, x, st))))
  }

  function Planned(c: Config, x: Sample, st: State): Plan {
    Decide(c, x, Measured(c, x, st).0)
  }

  /** The rest of it: decide and commit. */
  function Acted(c: Config, x: Sample, m: State): (State, seq<Command>) {
    CommitPlan(c, x, Decide(c, x, m))
  }

  /** One iteration of the detection loop. */
  function Tick(c: Config, x: Sample, st: State): (State, seq<Command>) {
    if !c.enabled then Disable(c, x, Receive(c, x, st))
    else
      var (m, gate) := Measured(c, x, st);
      var (r, cmds) := Acted(c, x, m);
      (r, gate + cmds)
  }

  /** The loop left by daynight_stop: hand the illuminator back. */
  function Stop(c: Config, x: Sample, st: State): (State, seq<Command>) {
    Abandon(c, x, st)
  }

  // ------------------------------------------------------------------
  // Runs

  /** One iteration's view of the world. */
  datatype Step = Step(c: Config, x: Sample)

  function Run(st: State, steps: seq<Step>): (State, seq<Command>)
    decreases |steps|
  {
    if steps == [] then (st, [])
    else
      var last := steps[|steps| - 1];
      var (a, before) := Run(st, steps[..|steps| - 1]);
      var (b, cmds) := Tick(last.c, last.x, a);
      (b, before + cmds)
  }

  /** The clock is positive and never runs backwards. */
  predicate Clocked(steps: seq<Step>, from: int) {
    && 0 < from
    && (forall i :: 0 <= i < |steps| ==> steps[i].c.Valid() && from <= steps[i].x.now)
    && (forall i, j :: 0 <= i < j < |steps| ==> steps[i].x.now <= steps[j].x.now)
  }

  /** The moment the last iteration of a run saw. */
  function LastNow(steps: seq<Step>, from: int): int {
    if steps == [] then from else steps[|steps| - 1].x.now
  }
}
