/** The heartbeat is the only bound on a wrong night. Whatever was deferred, the next
    check is never due later than one heartbeat after the last night evidence or one
    heartbeat after the forced limit of the last audible probe, and a check that is due
    is asked for and, where the ration allows, carried out in the same iteration.
  */
module DayNightHeartbeat {
  import opened DayNight
  import opened DayNightSafety

  /** A silent probe is judged in this iteration and the answer is night. */
  predicate SilentNight(c: Config, x: Sample, m: State) {
    && m.enforceAt == 0 && !c.schedule && x.d > 0.0 && m.booted
    && m.irVerdictAt != 0 && x.now >= m.irVerdictAt
    && SaysNight(Judge(c, x, m))
  }

  /** This iteration produced night evidence: it entered night, judged a silent probe as
      night, or is the first to see a night nothing was driven for. */
  predicate Renewed(c: Config, x: Sample, st: State) {
    c.enabled &&
    var m := Measured(c, x, st).0;
    || (Tick(c, x, st).0.cur == Night && Planned(c, x, st).st.cur != Night)
    || SilentNight(c, x, m)
    || (m.cur == Night && m.hbAt == 0)
  }

  function Rebase(c: Config, x: Sample, st: State, base: int): int {
    if Renewed(c, x, st) then x.now else base
  }

  /** When the run last saw night evidence. */
  function Base(st: State, steps: seq<Step>): int
    decreases |steps|
  {
    if steps == [] then 0
    else
      var init, last := steps[..|steps| - 1], steps[|steps| - 1];
      Rebase(last.c, last.x, Run(st, init).0, Base(st, init))
  }

  /** The later of the last night evidence and the forced limit of the last probe. */
  function Limit(st: State, base: int, maxS: int): int {
    if st.lastProbe != 0 && st.lastProbe + maxS * 1000 > base then st.lastProbe + maxS * 1000 else base
  }

  predicate Bounded(st: State, base: int, hbS: int, maxS: int) {
    && (st.cur != Night ==> st.hbAt == 0)
    && (st.hbAt != 0 ==>
          && st.hbAt <= Limit(st, base, maxS) + hbS * 1000
          && st.modeSince <= base)
  }

  predicate FixedHeart(steps: seq<Step>, hbS: int, maxS: int) {
    forall i :: 0 <= i < |steps| ==> steps[i].c.heartbeatS == hbS && steps[i].c.heartbeatMaxS == maxS
  }

  /** What the measuring phases leave to the decision. */
  predicate Untouched(a: State, b: State) {
    && a.cur == b.cur && a.hbAt == b.hbAt && a.lastProbe == b.lastProbe && a.modeSince == b.modeSince
    && a.booted == b.booted && a.irVerdictAt == b.irVerdictAt && a.ref == b.ref && a.refDue == b.refDue
    && a.preProbe == b.preProbe && a.preProbeHr == b.preProbeHr && a.wasEnabled == b.wasEnabled
    && a.trigSince == b.trigSince && a.dLit == b.dLit
  }

  lemma GateReturnFrame(x: Sample, st: State)
    ensures Untouched(st, GateReturn(x, st).0)
  {}

  lemma GateVerifyFrame(x: Sample, st: State)
    ensures Untouched(st, GateVerify(x, st).0)
  {}

  lemma GateFrame(x: Sample, st: State)
    ensures Untouched(st, Gate(x, st).0)
  {
    GateReturnFrame(x, st);
    GateVerifyFrame(x, GateReturn(x, st).0);
  }

  lemma MeasuredFrame(c: Config, x: Sample, st: State)
    ensures var m := Measured(c, x, st).0;
            && m.wasEnabled
            && (if st.wasEnabled then Untouched(st, m)
                else m.cur == Unknown && m.hbAt == 0 && m.lastProbe == 0 && m.modeSince == 0 && m.ref == -1.0)
  {
    var e := Enable(x, Receive(c, x, st));
    SmoothFrame(c, x, e);
    GateFrame(x, Smooth(c, x, e));
  }

  /** What a decision may do to the heartbeat. */
  predicate HeartKept(c: Config, x: Sample, m: State, p: Plan) {
    && p.st.lastProbe == m.lastProbe && p.st.modeSince == m.modeSince
    && (p.st.cur != Night ==> p.st.hbAt == m.hbAt && p.st.cur == m.cur)
    && (p.st.cur == Night ==>
          || p.st.hbAt == m.hbAt
          || (m.cur == Night && p.st.hbAt == x.now + c.heartbeatS * 1000 &&
                (m.hbAt == 0 || SilentNight(c, x, m) ||
                 (m.lastProbe != 0 && x.now - m.lastProbe < c.heartbeatMaxS * 1000))))
  }

  lemma NightHeart(c: Config, x: Sample, m: State)
    requires m.cur == Night
    ensures HeartKept(c, x, m, DecideNight(c, x, m))
  {
    TriggersFrame(c, x, m);
    var (a, want) := NightTriggers(c, x, m);
    BeatHeart(c, x, a, want);
  }

  lemma BeatHeart(c: Config, x: Sample, a: State, want: bool)
    ensures var p := Heartbeat(c, x, a, want);
            && p.st == a.(hbAt := p.st.hbAt) && p.target == a.cur && !p.noSilent && (want ==> p.wantProbe)
            && (p.st.hbAt == a.hbAt ||
                (p.st.hbAt == x.now + c.heartbeatS * 1000
                 && a.lastProbe != 0 && x.now - a.lastProbe < c.heartbeatMaxS * 1000))
  {}

  lemma SilentHeart(c: Config, x: Sample, m: State)
    requires m.enforceAt == 0 && !c.schedule && x.d > 0.0 && m.booted
    requires m.irVerdictAt != 0 && x.now >= m.irVerdictAt && m.cur == Night
    ensures HeartKept(c, x, m, DecideSilent(c, x, m))
  {}

  lemma RunningHeart(c: Config, x: Sample, m: State)
    requires m.enforceAt == 0 && !c.schedule && x.d > 0.0 && m.booted && Coherent(m)
    ensures HeartKept(c, x, m, DecideRunning(c, x, m))
  {
    if m.irVerdictAt != 0 && x.now >= m.irVerdictAt {
      SilentHeart(c, x, m);
    } else if m.verdictAt != 0 && x.now >= m.verdictAt {
    } else if m.cur == Night {
      NightHeart(c, x, m);
    }
  }

  lemma FramingHeart(m: State)
    ensures var b := BootFraming(m);
            b.hbAt == m.hbAt && b.lastProbe == m.lastProbe && b.modeSince == m.modeSince && b.cur == Night
  {}

  lemma DecideHeart(c: Config, x: Sample, m: State)
    requires Coherent(m)
    ensures HeartKept(c, x, m, Decide(c, x, m))
  {
    FramingHeart(m);
    if m.enforceAt == 0 && !c.schedule && x.d > 0.0 && m.booted {
      RunningHeart(c, x, m);
    }
  }

  /** What a commit may do to the heartbeat. */
  predicate CommitKept(c: Config, x: Sample, p: Plan, r: State) {
    && (r.modeSince == p.st.modeSince || r.modeSince == x.now)
    && (if r.cur == p.st.cur
        then r.hbAt == p.st.hbAt && r.lastProbe == p.st.lastProbe && r.modeSince == p.st.modeSince
        else if r.cur == Night then r.hbAt <= x.now + c.heartbeatS * 1000 && r.modeSince == x.now
                                    && (c.Valid() && 0 < x.now ==> 0 < r.hbAt)
        else r.hbAt == 0)
  }

  lemma CommitLoudHeart(c: Config, x: Sample, p: Plan)
    ensures CommitKept(c, x, p, CommitLoud(c, x, p).0)
  {}

  lemma CommitHeart(c: Config, x: Sample, p: Plan)
    ensures CommitKept(c, x, p, CommitPlan(c, x, p).0)
  {
    CommitLoudHeart(c, x, p);
    CommitLoudHeart(c, x, p.(st := SilentFailed(p.st), cmds := p.cmds + [IrOff(false)]));
  }

  lemma TickHeart(c: Config, x: Sample, st: State, l: Ledger, base: int)
    requires Books(st, l) && 0 < x.now
    requires Bounded(st, base, c.heartbeatS, c.heartbeatMaxS) && base <= x.now && st.modeSince <= x.now
    ensures var r := Tick(c, x, st).0;
            Bounded(r, Rebase(c, x, st, base), c.heartbeatS, c.heartbeatMaxS) && r.modeSince <= x.now
  {
    if c.enabled {
      MeasuredFrame(c, x, st);
      MeasuredBooks(c, x, st, l);
      var m, p := Measured(c, x, st).0, Planned(c, x, st);
      DecideHeart(c, x, m);
      CommitHeart(c, x, p);
      ComposeHeart(c, x, m, p, CommitPlan(c, x, p).0, base);
    }
  }

  lemma ComposeHeart(c: Config, x: Sample, m: State, p: Plan, r: State, base: int)
    requires Bounded(m, base, c.heartbeatS, c.heartbeatMaxS) && base <= x.now && m.modeSince <= x.now
    requires HeartKept(c, x, m, p) && CommitKept(c, x, p, r)
    ensures var now := (r.cur == Night && p.st.cur != Night) || SilentNight(c, x, m) || (m.cur == Night && m.hbAt == 0);
            Bounded(r, if now then x.now else base, c.heartbeatS, c.heartbeatMaxS) && r.modeSince <= x.now
  {}

  lemma {:induction false} RunHeart(st: State, steps: seq<Step>, from: int, hbS: int, maxS: int)
    requires Clocked(steps, from) && FixedHeart(steps, hbS, maxS)
    requires Bounded(st, 0, hbS, maxS) && st.modeSince <= from
    requires Books(st, BLANK)
    ensures var r := Run(st, steps).0;
            Bounded(r, Base(st, steps), hbS, maxS) && Base(st, steps) <= LastNow(steps, from)
            && r.modeSince <= LastNow(steps, from)
    decreases |steps|
  {
    if steps != [] {
      var init, last := steps[..|steps| - 1], steps[|steps| - 1];
      RunHeart(st, init, from, hbS, maxS);
      RunBooks(st, BLANK, init, from);
      TickHeart(last.c, last.x, Run(st, init).0, PostAll(BLANK, Run(st, init).1), Base(st, init));
    }
  }

  /** In a night dwell the next check is bounded, whatever deferrals and dawn pull-ins
      happened on the way. */
  lemma HeartbeatDeadline(steps: seq<Step>, from: int, hbS: int, maxS: int)
    requires Clocked(steps, from) && FixedHeart(steps, hbS, maxS)
    ensures var st := Run(Start(from), steps).0;
            st.cur == Night && st.hbAt != 0 ==>
              st.hbAt <= Limit(st, Base(Start(from), steps), maxS) + hbS * 1000
  {
    RunHeart(Start(from), steps, from, hbS, maxS);
  }

  /** The iteration can decide: enabled, auto, readable, with nothing in flight. */
  predicate Readable(c: Config, x: Sample, st: State) {
    && c.enabled && !c.schedule && x.d > 0.0
    && st.wasEnabled && st.booted && st.cur == Night && st.irVerdictAt == 0
    && Measured(c, x, st).0.enforceAt == 0
  }

  lemma NightAsks(c: Config, x: Sample, m: State)
    requires m.cur == Night && m.hbAt != 0 && x.now >= m.hbAt
    requires m.lastProbe == 0 || x.now - m.lastProbe >= c.heartbeatMaxS * 1000
    ensures var p := DecideNight(c, x, m); p.wantProbe && !p.noSilent && p.target == Night == p.st.cur
    ensures var p := DecideNight(c, x, m);
            p.st.irVerdictAt == m.irVerdictAt && p.st.lastProbe == m.lastProbe && p.st.modeSince == m.modeSince
  {
    TriggersFrame(c, x, m);
    var (a, want) := NightTriggers(c, x, m);
    assert !Deferred(c, x, a);
  }

  /** A readable iteration past the bound asks for a probe, and if the ration is no longer
      than the bound it looks: by the silent probe or by the audible one. */
  lemma OverdueLooks(steps: seq<Step>, from: int, hbS: int, maxS: int, c: Config, x: Sample)
    requires Clocked(steps + [Step(c, x)], from) && FixedHeart(steps, hbS, maxS)
    requires c.heartbeatMaxS == maxS
    requires var st := Run(Start(from), steps).0;
             Readable(c, x, st) && st.hbAt != 0
             && x.now >= Limit(st, Base(Start(from), steps), maxS) + hbS * 1000
    requires 300 <= hbS
    ensures Planned(c, x, Run(Start(from), steps).0).wantProbe
    ensures c.probeMinGapS <= maxS + hbS ==>
              var cmds := Tick(c, x, Run(Start(from), steps).0).1;
              cmds != [] && cmds[|cmds| - 1] in {IrOff(true), Drive(Day, Probe, x.now)}
  {
    PrefixClocked(steps, Step(c, x), from);
    var st := Run(Start(from), steps).0;
    RunHeart(Start(from), steps, from, hbS, maxS);
    RunBooks(Start(from), BLANK, steps, from);
    NextLooks(c, x, st, Account(steps, from), Base(Start(from), steps), hbS);
  }

  lemma PrefixClocked(steps: seq<Step>, last: Step, from: int)
    requires Clocked(steps + [last], from)
    ensures Clocked(steps, from) && last.c.Valid() && 0 < last.x.now
  {
    var all := steps + [last];
    assert all[|steps|] == last;
    assert forall i :: 0 <= i < |steps| ==> steps[i] == all[i];
  }

  lemma NextLooks(c: Config, x: Sample, st: State, l: Ledger, base: int, hbS: int)
    requires Books(st, l) && 0 < x.now && Readable(c, x, st) && st.hbAt != 0 && 300 <= hbS
    requires Bounded(st, base, hbS, c.heartbeatMaxS)
    requires x.now >= Limit(st, base, c.heartbeatMaxS) + hbS * 1000
    ensures Planned(c, x, st).wantProbe
    ensures c.probeMinGapS <= c.heartbeatMaxS + hbS ==>
              var cmds := Tick(c, x, st).1;
              cmds != [] && cmds[|cmds| - 1] in {IrOff(true), Drive(Day, Probe, x.now)}
  {
    MeasuredFrame(c, x, st);
    MeasuredBooks(c, x, st, l);
    MeasuredLooks(c, x, Measured(c, x, st).0, hbS);
  }

  lemma MeasuredLooks(c: Config, x: Sample, m: State, hbS: int)
    requires Coherent(m) && m.enforceAt == 0 && !c.schedule && x.d > 0.0 && m.booted && m.irVerdictAt == 0
    requires m.cur == Night && m.hbAt != 0 && x.now >= m.hbAt && 300 <= hbS
    requires m.lastProbe == 0 || x.now - m.lastProbe >= (c.heartbeatMaxS + hbS) * 1000
    requires x.now - m.modeSince >= hbS * 1000
    ensures Decide(c, x, m).wantProbe
    ensures c.probeMinGapS <= c.heartbeatMaxS + hbS ==>
              var cmds := CommitPlan(c, x, Decide(c, x, m)).1;
              cmds != [] && cmds[|cmds| - 1] in {IrOff(true), Drive(Day, Probe, x.now)}
  {
    NightAsks(c, x, m);
    assert Decide(c, x, m) == DecideRunning(c, x, m) == DecideNight(c, x, m);
    if c.probeMinGapS <= c.heartbeatMaxS + hbS {
      AskedLooks(c, x, DecideNight(c, x, m));
    }
  }

  /** A wanted probe goes the silent way, or failing that the audible one, at once. */
  lemma AskedLooks(c: Config, x: Sample, p: Plan)
    requires p.wantProbe && p.st.cur == Night && p.st.irVerdictAt == 0 && DwellOver(p.st, x.now)
    requires p.st.lastProbe == 0 || x.now - p.st.lastProbe >= c.probeMinGapS * 1000
    ensures var cmds := CommitPlan(c, x, p).1;
            cmds != [] && cmds[|cmds| - 1] in {IrOff(true), Drive(Day, Probe, x.now)}
  {}

  lemma UnsetNight(c: Config, x: Sample, m: State, p: Plan, r: State)
    requires 0 < x.now && c.Valid() && (m.cur == Night ==> m.hbAt != 0)
    requires HeartKept(c, x, m, p) && CommitKept(c, x, p, r) && r.cur == Night && r.hbAt == 0
    ensures p.st.cur == Night && m.cur != Night
  {}

  /** In night the check is unset only right after a boot measurement was cut off. */
  lemma UnsetOnlyAfterBootCut(c: Config, x: Sample, st: State, l: Ledger)
    requires Books(st, l) && 0 < x.now && c.Valid() && (st.cur == Night ==> st.hbAt != 0)
    ensures var r := Tick(c, x, st).0;
            r.cur == Night && r.hbAt == 0 ==> BootCut(c, x, Measured(c, x, st).0)
  {
    var r := Tick(c, x, st).0;
    if c.enabled && r.cur == Night && r.hbAt == 0 {
      MeasuredFrame(c, x, st);
      MeasuredBooks(c, x, st, l);
      var m, p := Measured(c, x, st).0, Planned(c, x, st);
      DecideHeart(c, x, m);
      CommitHeart(c, x, p);
      UnsetNight(c, x, m, p, r);
      var l1 := PostAll(l, Measured(c, x, st).1);
      DecideCur(c, x, m, l1);
      BootProbe(c, x, m, l1);
    }
  }
}
