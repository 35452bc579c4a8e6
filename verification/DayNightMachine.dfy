/** The detection loop as the program runs it: one object holding the loop's scalars,
    updated in place block by block. Every block is proved to do what its function in
    `DayNight` says, so what is proved about runs of `Tick` holds of this machine.
  */
module DayNightMachine {
  import opened DayNight

  class Automaton {
    /** The loop's scalars. */
    var st: State
    /** Every command issued so far, in order. */
    ghost var log: seq<Command>

    constructor (now: int)
      ensures st == Start(now) && log == []
    {
      st := Start(now);
      log := [];
    }

    method ForgetScene()
      modifies this
      ensures st == DayNight.ForgetScene(old(st)) && log == old(log)
    {
      st := st.(scene := NO_SCENE);
    }

    method Abandon(c: Config, x: Sample)
      modifies this
      ensures st == DayNight.Abandon(c, x, old(st)).0
      ensures log == old(log) + DayNight.Abandon(c, x, old(st)).1
    {
      if st.irVerdictAt == 0 { return; }
      log := log + [IrOn(c.hasIrCmd && x.onOk)];
      st := st.(irVerdictAt := 0, dLit := -1.0, dLitHr := -1);
    }

    method Disable(c: Config, x: Sample)
      modifies this
      ensures st == DayNight.Disable(c, x, old(st)).0
      ensures log == old(log) + DayNight.Disable(c, x, old(st)).1
    {
      st := st.(wasEnabled := false, cur := Unknown);
      st := st.(s := -1.0, stableN := 0, ref := -1.0, refDue := 0);
      st := st.(trigSince := 0, darkSince := 0, verdictAt := 0, hbAt := 0, modeSince := 0);
      st := st.(preProbe := -1.0, preProbeHr := -1);
      ForgetScene();
      Abandon(c, x);
      st := st.(verifyAt := 0, enforceAt := 0, verifyCyc := 0);
    }

    method Enable(x: Sample)
      modifies this
      ensures st == DayNight.Enable(x, old(st)) && log == old(log)
    {
      if st.wasEnabled { return; }
      st := st.(wasEnabled := true, cur := Unknown);
      st := st.(s := -1.0, stableN := 0, ref := -1.0, refDue := 0);
      st := st.(trigSince := 0, darkSince := 0, verdictAt := 0, hbAt := 0, modeSince := 0);
      st := st.(irVerdictAt := 0, dLit := -1.0, dLitHr := -1);
      st := st.(verifyAt := 0, enforceAt := 0, verifyCyc := 0);
      st := st.(lastProbe := 0, preProbe := -1.0, preProbeHr := -1);
      ForgetScene();
      st := st.(cost := NO_COST);
      st := st.(irFails := 0, irUnusable := false);
      st := st.(booted := false, bootAt := x.now);
    }

    /** The sustained minimum's tumbling window. */
    method Window(c: Config, x: Sample)
      modifies this
      ensures st == DayNight.Window(c, x, old(st)) && log == old(log)
    {
      var w := st.scene;
      if w.winMax <= 0.0 {
        w := w.(winMax := st.s, winAt := x.now);
      } else if st.s > w.winMax {
        w := w.(winMax := st.s);
      }
      if x.now - w.winAt >= c.probeConfirmS * 1000 {
        if w.sustMin <= 0.0 || w.winMax < w.sustMin { w := w.(sustMin := w.winMax); }
        w := w.(winMax := st.s, winAt := x.now);
      }
      st := st.(scene := w);
    }

    method Level(x: Sample)
      modifies this
      ensures st == Smoothed(x, old(st)) && log == old(log)
    {
      var s := Ema(st.s, x.d, ALPHA);
      var distance := if x.d > s then x.d - s else s - x.d;
      var n := 0;
      if distance < s * STABLE_PCT { n := st.stableN + 1; }
      st := st.(s := s, stableN := n);
    }

    method ClipClock(x: Sample)
      modifies this
      ensures st == DayNight.ClipClock(x, old(st)) && log == old(log)
    {
      var since := st.clipSince;
      if Clipped(x.headroom) && st.stableN >= STABLE_N {
        if since == 0 { since := x.now; }
      } else {
        since := 0;
      }
      st := st.(clipSince := since, clipHeld := since != 0 && x.now - since >= STABLE_MAX_MS);
    }

    method Trend(c: Config, x: Sample)
      modifies this
      ensures st == DayNight.Trend(c, x, old(st)) && log == old(log)
    {
      if st.cur == Night && st.irVerdictAt == 0 && st.enforceAt == 0 && (!Clipped(x.headroom) || st.clipHeld) {
        var e := st.scene;
        e := e.(emaFast := Ema(e.emaFast, x.d, EmaAlpha(c.Interval(), TREND_FAST_MS)));
        e := e.(emaSlow := Ema(e.emaSlow, x.d, EmaAlpha(c.Interval(), TREND_SLOW_MS)));
        st := st.(scene := e);
      }
    }

    method Smooth(c: Config, x: Sample)
      modifies this
      ensures st == DayNight.Smooth(c, x, old(st)) && log == old(log)
    {
      if x.d <= 0.0 { return; }
      Level(x);
      Window(c, x);
      ClipClock(x);
      Trend(c, x);
    }

    method Enforce(x: Sample)
      modifies this
      ensures st == GateReturn(x, old(st)).0 && log == old(log) + GateReturn(x, old(st)).1
    {
      if st.enforceAt == 0 || x.now < st.enforceAt { return; }
      log := log + [Drive(st.cur, Return, x.now)];
      var due := 0;
      if st.verdictAt != 0 { due := x.now + SETTLE_MS; }
      st := st.(enforceAt := 0, verdictAt := due, verifyAt := x.now + VERIFY_MS, s := -1.0, stableN := 0);
      ForgetScene();
    }

    method Verify(x: Sample)
      modifies this
      ensures st == GateVerify(x, old(st)).0 && log == old(log) + GateVerify(x, old(st)).1
    {
      if st.verifyAt != 0 && x.isp != Unknown && x.isp == st.cur {
        st := st.(verifyAt := 0, verifyCyc := 0);
      } else if st.verifyAt != 0 && x.now >= st.verifyAt && st.irVerdictAt == 0 {
        if x.isp != Unknown && st.verifyCyc < VERIFY_MAX_CYCLES {
          log := log + [Drive(Opposite(st.cur), Counter, x.now)];
          st := st.(verifyAt := 0, verifyCyc := st.verifyCyc + 1, enforceAt := x.now + VERIFY_HOLD_MS,
                    s := -1.0, stableN := 0);
        } else {
          st := st.(verifyAt := 0);
        }
      }
    }

    /** The iteration up to the decision. */
    method Measure(c: Config, x: Sample)
      modifies this
      ensures st == Measured(c, x, old(st)).0 && log == old(log) + Measured(c, x, old(st)).1
    {
      if x.request && c.hasIrCmd && !st.irUnusable { st := st.(probeReq := true); }
      Enable(x);
      Smooth(c, x);
      Enforce(x);
      Verify(x);
    }

    /** The machine and the decision's results are what the plan says. */
    ghost predicate Follows(p: Plan, before: seq<Command>, target: Mode, force: bool, wantProbe: bool, noSilent: bool)
      reads this
    {
      && st == p.st && log == before + p.cmds
      && target == p.target && force == p.force && wantProbe == p.wantProbe && noSilent == p.noSilent
    }

    /** The dark reading against the lit one. */
    method Compare(c: Config, x: Sample) returns (v: Verdict)
      ensures v == Judge(c, x, st)
    {
      var r := -1.0;
      if st.dLit > 0.0 && st.s > 0.0 { r := st.s / st.dLit; }
      if r <= 0.0 { return Useless; }
      if Clipped(st.dLitHr) { return RailedLit; }
      if r >= RATIO_NIGHT { return IlluminatorCarries; }
      if x.headroom < 0 { return RoomUnknown; }
      if r <= RATIO_DAY && x.headroom >= MIN_HEADROOM {
        if st.cost.filterCost > 0.0 && st.s / r * st.cost.filterCost > c.NightBar() { return VetoedByCost; }
        return RoomLit;
      }
      if x.headroom < MIN_HEADROOM { return Pegged; }
      return Undecided;
    }

    /** The state a silent verdict leaves. */
    method Relight(c: Config, x: Sample, v: Verdict)
      modifies this
      ensures st == Judged(c, x, old(st), v) && log == old(log)
    {
      var r := Ratio(st.dLit, st.s);
      var lit := if r > 0.0 then st.s / r else -1.0;
      var ref := st.ref;
      if v == IlluminatorCarries || v == VetoedByCost { ref := Lowered(ref, lit); }
      if SaysNight(v) {
        st := st.(irVerdictAt := 0, dLit := -1.0, dLitHr := -1, s := -1.0, stableN := 0, ref := ref,
                  trigSince := 0, hbAt := x.now + c.heartbeatS * 1000, scene := NO_SCENE);
      } else if v == RoomLit {
        st := st.(irVerdictAt := 0, dLit := -1.0, dLitHr := -1, s := -1.0, stableN := 0,
                  cost := st.cost.(irNightAt := lit, irNightMs := x.now));
      } else {
        st := st.(irVerdictAt := 0, dLit := -1.0, dLitHr := -1, s := -1.0, stableN := 0);
      }
    }

    method SilentVerdict(c: Config, x: Sample)
      returns (target: Mode, force: bool, wantProbe: bool, noSilent: bool)
      modifies this
      ensures Follows(DecideSilent(c, x, old(st)), old(log), target, force, wantProbe, noSilent)
    {
      target, force, wantProbe, noSilent := st.cur, false, false, false;
      var v := Compare(c, x);
      log := log + [IrOn(c.hasIrCmd && x.onOk)];
      Relight(c, x, v);
      if v == RoomLit {
        target := Day;
      } else if !SaysNight(v) {
        wantProbe, noSilent := true, true;
      }
    }

    method AudibleVerdict(c: Config, x: Sample)
      returns (target: Mode, force: bool, wantProbe: bool, noSilent: bool)
      modifies this
      ensures Follows(DecideAudible(c, x, old(st)), old(log), target, force, wantProbe, noSilent)
    {
      target, force, wantProbe, noSilent := st.cur, false, false, false;
      if x.isp != Unknown && x.isp != st.cur && (st.verifyAt != 0 || st.enforceAt != 0) { return; }
      st := st.(verdictAt := 0);
      if st.s < c.DayBar() {
        st := st.(preProbe := -1.0, preProbeHr := -1);
      } else {
        target, force := Night, true;
      }
    }

    method DayRule(c: Config, x: Sample)
      returns (target: Mode, force: bool, wantProbe: bool, noSilent: bool)
      modifies this
      ensures Follows(DecideDay(c, x, old(st)), old(log), target, force, wantProbe, noSilent)
    {
      target, force, wantProbe, noSilent := st.cur, false, false, false;
      if st.verdictAt != 0 { return; }
      var since := st.darkSince;
      if st.s > c.NightBar() || Clipped(x.headroom) {
        if since == 0 { since := x.now; }
      } else {
        since := 0;
      }
      if since == 0 || x.now - since < c.dayConfirmS * 1000 {
        st := st.(darkSince := since);
        return;
      }
      st := st.(darkSince := since, cost := Cost(FilterCost(c, x, st), -1.0, 0));
      target := Night;
    }

    /** First anchor of the reference after entering night. */
    method AnchorReference(x: Sample)
      modifies this
      ensures st == Anchor(x, old(st)) && log == old(log)
    {
      if st.ref < 0.0 && st.refDue != 0 && x.now >= st.refDue
         && (st.stableN >= STABLE_N || x.now >= st.refDue + STABLE_MAX_MS) {
        if !Clipped(x.headroom) || st.clipHeld { st := st.(ref := st.s); }
      }
    }

    method Triggers(c: Config, x: Sample) returns (wantProbe: bool)
      modifies this
      ensures (st, wantProbe) == NightTriggers(c, x, old(st)) && log == old(log)
    {
      AnchorReference(x);
      wantProbe := false;
      var trig, trend, asked, due := st.trigSince, st.scene.trendSince, st.probeReq, st.hbAt;
      if st.ref > 0.0 && st.s < JumpBar(st.ref) {
        if trig == 0 { trig := x.now; }
      } else {
        trig := 0;
      }
      if trig != 0 && x.now - trig >= c.probeConfirmS * 1000 { wantProbe := true; }
      if c.hasIrCmd && !st.irUnusable && st.scene.emaFast > 0.0 && st.scene.emaSlow > 0.0 && st.scene.emaFast < st.scene.emaSlow * 0.75 {
        if trend == 0 { trend := x.now; }
      } else {
        trend := 0;
      }
      if asked && !wantProbe { asked, wantProbe := false, true; }
      if trend != 0 && !wantProbe && x.now - trend >= c.probeConfirmS * 1000 { wantProbe := true; }
      if due == 0 { due := x.now + c.heartbeatS * 1000; }
      st := st.(trigSince := trig, scene := st.scene.(trendSince := trend), probeReq := asked, hbAt := due);
    }

    method Beat(c: Config, x: Sample, want: bool) returns (wantProbe: bool)
      modifies this
      ensures Follows(Heartbeat(c, x, old(st), want), old(log), old(st).cur, false, wantProbe, false)
    {
      wantProbe := want;
      if x.now >= st.hbAt {
        var flat := st.ref > 0.0 && st.scene.sustMin > 0.0 && !(st.scene.sustMin < st.ref * MOVED_MARGIN);
        if flat && Sighted(x, st.ref) && st.lastProbe != 0 && x.now - st.lastProbe < c.heartbeatMaxS * 1000 {
          st := st.(hbAt := x.now + c.heartbeatS * 1000);
        } else {
          wantProbe := true;
        }
      }
    }

    method NightRule(c: Config, x: Sample)
      returns (target: Mode, force: bool, wantProbe: bool, noSilent: bool)
      modifies this
      ensures Follows(DecideNight(c, x, old(st)), old(log), target, force, wantProbe, noSilent)
    {
      force, noSilent := false, false;
      wantProbe := Triggers(c, x);
      target := st.cur;
      wantProbe := Beat(c, x, wantProbe);
    }

    method Boot(c: Config, x: Sample)
      returns (target: Mode, force: bool, wantProbe: bool, noSilent: bool)
      modifies this
      ensures Follows(DecideBoot(c, x, old(st)), old(log), target, force, wantProbe, noSilent)
    {
      target, force, wantProbe, noSilent := st.cur, false, false, false;
      if x.now - st.bootAt < BOOT_SETTLE_MS || (st.stableN < STABLE_N && x.now - st.bootAt < STABLE_MAX_MS) { return; }
      st := st.(booted := true);
      if !c.bootProbe && x.headroom != 0 {
        target, force := Persisted(x), true;
        return;
      }
      st := st.(cur := Night, ref := -1.0, refDue := 0);
      ForgetScene();
      wantProbe, noSilent := true, true;
    }

    method Decide(c: Config, x: Sample)
      returns (target: Mode, force: bool, wantProbe: bool, noSilent: bool)
      modifies this
      ensures Follows(DayNight.Decide(c, x, old(st)), old(log), target, force, wantProbe, noSilent)
    {
      target, force, wantProbe, noSilent := st.cur, false, false, false;
      if st.enforceAt != 0 { return; }
      if c.schedule {
        Abandon(c, x);
        if x.calendar != Unknown { target := x.calendar; }
      } else if x.d <= 0.0 {
        if !st.booted && x.now - st.bootAt >= STABLE_MAX_MS {
          st := st.(booted := true);
          target, force := Persisted(x), true;
        }
      } else if !st.booted {
        target, force, wantProbe, noSilent := Boot(c, x);
      } else if st.irVerdictAt != 0 && x.now >= st.irVerdictAt {
        target, force, wantProbe, noSilent := SilentVerdict(c, x);
      } else if st.verdictAt != 0 && x.now >= st.verdictAt {
        target, force, wantProbe, noSilent := AudibleVerdict(c, x);
      } else if st.cur == Day {
        target, force, wantProbe, noSilent := DayRule(c, x);
      } else if st.cur == Night {
        target, force, wantProbe, noSilent := NightRule(c, x);
      }
    }

    method AudibleProbe(x: Sample)
      modifies this
      ensures st == StartAudible(x, old(st)) && log == old(log) + [Drive(Day, Probe, x.now)]
    {
      st := st.(preProbe := if st.s > 0.0 then st.s else st.ref);
      st := st.(preProbeHr := x.headroom);
      log := log + [Drive(Day, Probe, x.now)];
      st := st.(cur := Day, modeSince := x.now, lastProbe := x.now);
      st := st.(verdictAt := x.now + SETTLE_MS);
      st := st.(irVerdictAt := 0, dLit := -1.0);
      st := st.(trigSince := 0, darkSince := 0, hbAt := 0);
      st := st.(s := -1.0, stableN := 0);
      ForgetScene();
      st := st.(verifyAt := x.now + VERIFY_MS, verifyCyc := 0, enforceAt := 0);
    }

    /** What entering `target` makes of the reference and the next check. */
    method Entry(c: Config, x: Sample, target: Mode) returns (ref: real, due: int, hb: int)
      ensures var r := SwitchTo(c, x, st, target); ref == r.ref && due == r.refDue && hb == r.hbAt
    {
      var reverted := st.cur == Day && target == Night && st.preProbe > 0.0;
      ref, due, hb := -1.0, 0, 0;
      if target == Night {
        if reverted && !Clipped(st.preProbeHr) {
          ref := st.preProbe;
        } else {
          due := x.now + REF_DELAY_MS;
        }
        hb := x.now + c.heartbeatS * 1000;
        if x.dawnS >= 0 && x.now + x.dawnS * 1000 < hb { hb := x.now + x.dawnS * 1000; }
      }
    }

    method Switch(c: Config, x: Sample, target: Mode)
      modifies this
      ensures st == SwitchTo(c, x, old(st), target) && log == old(log) + [Drive(target, Why.Commit, x.now)]
    {
      var ref, due, hb := Entry(c, x, target);
      log := log + [Drive(target, Why.Commit, x.now)];
      st := st.(cur := target, modeSince := x.now, s := -1.0, stableN := 0,
                trigSince := 0, darkSince := 0, verdictAt := 0, irVerdictAt := 0, dLit := -1.0,
                verifyAt := x.now + VERIFY_MS, verifyCyc := 0, enforceAt := 0,
                ref := ref, refDue := due, hbAt := hb, preProbe := -1.0, preProbeHr := -1, scene := NO_SCENE);
    }

    method CommitLoud(c: Config, x: Sample, target: Mode, force: bool, wantProbe: bool, noSilent: bool)
      modifies this
      ensures var p := Plan(old(st), [], target, force, wantProbe, noSilent);
              st == DayNight.CommitLoud(c, x, p).0 && log == old(log) + DayNight.CommitLoud(c, x, p).1
    {
      if wantProbe && st.cur == Night && st.irVerdictAt == 0
         && (st.lastProbe == 0 || x.now - st.lastProbe >= c.probeMinGapS * 1000)
         && (st.modeSince == 0 || x.now - st.modeSince >= TRANSITION_MS) {
        AudibleProbe(x);
      } else if target != st.cur && target != Unknown
                && (force || st.modeSince == 0 || x.now - st.modeSince >= TRANSITION_MS) {
        Switch(c, x, target);
      }
    }

    /** Illuminator off; what it read lit is kept for the verdict. */
    method SilentProbe(x: Sample) returns (started: bool)
      modifies this
      ensures started == x.offOk && log == old(log) + [IrOff(x.offOk)]
      ensures st == if started then StartSilent(x, old(st)) else SilentFailed(old(st))
    {
      log := log + [IrOff(x.offOk)];
      started := x.offOk;
      if started {
        st := st.(dLit := st.s, dLitHr := x.headroom, irVerdictAt := x.now + SETTLE_MS,
                  s := -1.0, stableN := 0, irFails := 0);
      } else {
        var fails := st.irFails + 1;
        st := st.(irFails := fails, irUnusable := st.irUnusable || fails >= IR_MAX_FAILS);
      }
    }

    method Commit(c: Config, x: Sample, target: Mode, force: bool, wantProbe: bool, noSilent: bool)
      modifies this
      ensures var p := Plan(old(st), [], target, force, wantProbe, noSilent);
              st == CommitPlan(c, x, p).0 && log == old(log) + CommitPlan(c, x, p).1
    {
      if wantProbe && !noSilent && st.cur == Night && st.irVerdictAt == 0 && c.hasIrCmd && !st.irUnusable
         && (st.modeSince == 0 || x.now - st.modeSince >= TRANSITION_MS) {
        var started := SilentProbe(x);
        if started { return; }
        LoudPrefix(c, x, Plan(st, [], target, force, wantProbe, noSilent), [IrOff(false)]);
      }
      CommitLoud(c, x, target, force, wantProbe, noSilent);
    }

    /** Decide and commit. */
    method Act(c: Config, x: Sample)
      modifies this
      ensures st == Acted(c, x, old(st)).0
      ensures log == old(log) + Acted(c, x, old(st)).1
    {
      ghost var p := DayNight.Decide(c, x, st);
      var target, force, wantProbe, noSilent := Decide(c, x);
      ghost var q := Plan(p.st, [], target, force, wantProbe, noSilent);
      CommitPrefix(c, x, q, p.cmds);
      assert q.(cmds := p.cmds) == p;
      Commit(c, x, target, force, wantProbe, noSilent);
    }

    /** One iteration of the loop. */
    method Tick(c: Config, x: Sample)
      modifies this
      ensures st == DayNight.Tick(c, x, old(st)).0
      ensures log == old(log) + DayNight.Tick(c, x, old(st)).1
    {
      if c.enabled {
        ghost var gate := Measured(c, x, st);
        Measure(c, x);
        Act(c, x);
        Associate(old(log), gate.1, Acted(c, x, gate.0).1);
      } else {
        if x.request && c.hasIrCmd && !st.irUnusable { st := st.(probeReq := true); }
        Disable(c, x);
      }
    }

    /** The loop has ended. */
    method Stop(c: Config, x: Sample)
      modifies this
      ensures st == DayNight.Stop(c, x, old(st)).0
      ensures log == old(log) + DayNight.Stop(c, x, old(st)).1
    {
      Abandon(c, x);
    }
  }

  lemma Associate(a: seq<Command>, b: seq<Command>, d: seq<Command>)
    ensures (a + b) + d == a + (b + d)
  {}

  lemma LoudPrefix(c: Config, x: Sample, p: Plan, before: seq<Command>)
    requires p.cmds == []
    ensures CommitLoud(c, x, p.(cmds := before)).0 == CommitLoud(c, x, p).0
    ensures CommitLoud(c, x, p.(cmds := before)).1 == before + CommitLoud(c, x, p).1
  {}

  /** Commands issued before the commit stay in front of the commit's own. */
  lemma CommitPrefix(c: Config, x: Sample, p: Plan, before: seq<Command>)
    requires p.cmds == []
    ensures CommitPlan(c, x, p.(cmds := before)).0 == CommitPlan(c, x, p).0
    ensures CommitPlan(c, x, p.(cmds := before)).1 == before + CommitPlan(c, x, p).1
  {
    LoudPrefix(c, x, p, before);
    var q := p.(st := SilentFailed(p.st));
    LoudPrefix(c, x, q, before + [IrOff(false)]);
    LoudPrefix(c, x, q, [IrOff(false)]);
  }

  /** The daemon's loop over any sequence of iterations is the run that the properties are
      proved about. */
  method Loop(from: int, steps: seq<Step>) returns (a: Automaton)
    ensures fresh(a) && a.st == Run(Start(from), steps).0 && a.log == Run(Start(from), steps).1
  {
    a := new Automaton(from);
    assert steps[..0] == [];
    for i := 0 to |steps|
      invariant a.st == Run(Start(from), steps[..i]).0 && a.log == Run(Start(from), steps[..i]).1
      invariant fresh(a)
    {
      assert steps[..i + 1][..i] == steps[..i];
      a.Tick(steps[i].c, steps[i].x);
    }
    assert steps[..|steps|] == steps;
  }
}
