/** What every run of the automaton keeps between the state and the commands
    issued so far: the illuminator is handed back, forced cycles are matched, the
    number of board drives is bounded by the number of committed changes and
    audible probes are rationed.
  */
module DayNightSafety {
  import opened DayNight

  // ------------------------------------------------------------------
  // Reading a command log

  /** What a log of commands amounts to. */
  datatype Ledger = Ledger(
    lit: bool,        // the last successful illuminator command was not "off"
    owed: bool,       // an "off" succeeded and no "on" was issued since
    paired: bool,     // every "off" met a lit illuminator, every "on" answered one "off"
    lost: bool,       // some "on" failed
    board: Mode,      // the mode last driven
    commits: nat,
    counters: nat,
    backs: nat,
    probes: seq<int>) // when the audible probes were driven
  {
    function Drives(): nat { commits + counters + backs }
  }

  const BLANK: Ledger := Ledger(true, false, true, false, Unknown, 0, 0, 0, [])

  function Post(l: Ledger, cmd: Command): Ledger {
    match cmd
    case IrOff(ok) => if ok then l.(lit := false, owed := true, paired := l.paired && !l.owed) else l
    case IrOn(ok) => l.(lit := l.lit || ok, owed := false, paired := l.paired && l.owed, lost := l.lost || !ok)
    case Drive(m, why, at) =>
      match why
      case Probe => l.(board := m, commits := l.commits + 1, probes := l.probes + [at])
      case Commit => l.(board := m, commits := l.commits + 1)
      case Counter => l.(board := m, counters := l.counters + 1)
      case Return => l.(board := m, backs := l.backs + 1)
  }

  function PostAll(l: Ledger, cmds: seq<Command>): Ledger {
    if cmds == [] then l else Post(PostAll(l, cmds[..|cmds| - 1]), cmds[|cmds| - 1])
  }

  lemma {:induction false} PostAllConcat(l: Ledger, a: seq<Command>, b: seq<Command>)
    ensures PostAll(l, a + b) == PostAll(PostAll(l, a), b)
    decreases |b|
  {
    if b == [] {
      assert a + b == a;
    } else {
      PostAllConcat(l, a, b[..|b| - 1]);
      assert (a + b)[..|a + b| - 1] == a + b[..|b| - 1];
    }
  }

  lemma PostAllOne(l: Ledger, cmd: Command)
    ensures PostAll(l, [cmd]) == Post(l, cmd)
  {
    assert [cmd][..0] == [];
    assert PostAll(l, [cmd][..0]) == l;
  }

  // ------------------------------------------------------------------
  // The invariant

  /** Which deadlines may be armed together, and in which mode. */
  predicate Coherent(st: State) {
    && (st.irVerdictAt != 0 ==> st.cur == Night && st.wasEnabled && st.booted && st.enforceAt == 0)
    && (st.verdictAt != 0 ==> st.cur == Day && st.booted)
    && (st.verifyAt != 0 ==> st.enforceAt == 0 && st.cur != Unknown)
    && (st.enforceAt != 0 ==> st.verifyCyc == 1 && st.cur != Unknown)
    && 0 <= st.verifyCyc <= 1
    && (!st.booted ==> st.lastProbe == 0)
    && (st.cur == Unknown ==> st.modeSince == 0)
  }

  /** What the log owes the state. */
  predicate Settled(st: State, l: Ledger) {
    && l.paired
    && l.owed == (st.irVerdictAt != 0)
    && (!l.lost ==> l.lit == (st.irVerdictAt == 0))
    && l.counters + (if st.verifyAt != 0 && st.verifyCyc == 0 then 1 else 0) <= l.commits
    && l.backs + (if st.enforceAt != 0 then 1 else 0) <= l.counters
  }

  predicate Books(st: State, l: Ledger) {
    Coherent(st) && Settled(st, l)
  }

  /** The fields only the gate, the decision and the commit touch. */
  predicate SameControl(a: State, b: State) {
    && a.cur == b.cur && a.modeSince == b.modeSince && a.lastProbe == b.lastProbe
    && a.verdictAt == b.verdictAt && a.irVerdictAt == b.irVerdictAt
    && a.verifyAt == b.verifyAt && a.verifyCyc == b.verifyCyc && a.enforceAt == b.enforceAt
    && a.booted == b.booted && a.wasEnabled == b.wasEnabled
    && a.hbAt == b.hbAt && a.ref == b.ref && a.refDue == b.refDue
    && a.trigSince == b.trigSince && a.darkSince == b.darkSince
    && a.irUnusable == b.irUnusable && a.probeReq == b.probeReq && a.preProbe == b.preProbe
    && a.preProbeHr == b.preProbeHr && a.dLit == b.dLit
  }

  lemma WindowFrame(c: Config, x: Sample, st: State)
    ensures SameControl(st, Window(c, x, st))
  {}

  lemma ClipClockFrame(x: Sample, st: State)
    ensures SameControl(st, ClipClock(x, st))
  {}

  lemma TrendFrame(c: Config, x: Sample, st: State)
    ensures SameControl(st, Trend(c, x, st))
  {}

  lemma SmoothFrame(c: Config, x: Sample, st: State)
    ensures SameControl(st, Smooth(c, x, st))
  {
    if x.d > 0.0 {
      var r := Smoothed(x, st);
      var w := Window(c, x, r);
      WindowFrame(c, x, r);
      ClipClockFrame(x, w);
      TrendFrame(c, x, ClipClock(x, w));
    }
  }

  lemma EnableBooks(c: Config, x: Sample, st: State, l: Ledger)
    requires Books(st, l) && 0 < x.now
    ensures Books(Smooth(c, x, Enable(x, Receive(c, x, st))), l)
    ensures var sm := Smooth(c, x, Enable(x, Receive(c, x, st)));
            sm.wasEnabled && (st.wasEnabled ==> SameControl(Receive(c, x, st), sm))
  {
    SmoothFrame(c, x, Enable(x, Receive(c, x, st)));
  }

  /** What the gate leaves alone. */
  predicate GateKeeps(a: State, l: Ledger, b: State, after: Ledger) {
    && Books(b, after) && b.wasEnabled == a.wasEnabled && b.lastProbe == a.lastProbe && b.booted == a.booted
    && after.probes == l.probes && after.lit == l.lit && after.lost == l.lost
  }

  lemma GateReturnBooks(x: Sample, st: State, l: Ledger)
    requires Books(st, l) && 0 < x.now
    ensures var (a, cmds) := GateReturn(x, st); GateKeeps(st, l, a, PostAll(l, cmds))
  {
    var (a, cmds) := GateReturn(x, st);
    if cmds != [] { PostAllOne(l, cmds[0]); }
  }

  lemma GateVerifyBooks(x: Sample, st: State, l: Ledger)
    requires Books(st, l) && 0 < x.now
    ensures var (b, cmds) := GateVerify(x, st); GateKeeps(st, l, b, PostAll(l, cmds))
  {
    var (b, cmds) := GateVerify(x, st);
    if cmds != [] { PostAllOne(l, cmds[0]); }
  }

  lemma GateBooks(x: Sample, st: State, l: Ledger)
    requires Books(st, l) && 0 < x.now
    ensures var (b, cmds) := Gate(x, st); GateKeeps(st, l, b, PostAll(l, cmds))
  {
    var (a, c1) := GateReturn(x, st);
    GateReturnBooks(x, st, l);
    GateVerifyBooks(x, a, PostAll(l, c1));
    PostAllConcat(l, c1, GateVerify(x, a).1);
  }

  /** A plan made in `st` never asks for a probe or another mode while either is
      unsafe, drives no board itself, and after a failed relight the silent route is
      closed for this iteration. */
  predicate Sound(st: State, p: Plan, l: Ledger) {
    var after := PostAll(l, p.cmds);
    && Books(p.st, after) && p.st.wasEnabled
    && (p.wantProbe ==> p.st.enforceAt == 0 && p.st.booted)
    && (p.target != p.st.cur && p.target != Unknown ==> p.st.irVerdictAt == 0 && p.st.enforceAt == 0)
    && after.probes == l.probes && after.board == l.board
    && (st.booted ==> p.st.booted)
    && p.st.lastProbe == st.lastProbe && p.st.enforceAt == st.enforceAt && p.st.modeSince == st.modeSince
    && (p.st.cur == st.cur || (!st.booted && p.st.cur == Night))
    && (l.lost ==> after.lost)
    && (after.lost && !l.lost ==> !after.lit && p.st.irVerdictAt == 0 && (p.wantProbe ==> p.noSilent))
  }

  lemma AbandonBooks(c: Config, x: Sample, st: State, l: Ledger)
    requires Books(st, l)
    ensures Books(Abandon(c, x, st).0, PostAll(l, Abandon(c, x, st).1))
    ensures var (a, cmds) := Abandon(c, x, st);
            && a.irVerdictAt == 0
            && PostAll(l, cmds).probes == l.probes && PostAll(l, cmds).board == l.board
            && (l.lost ==> PostAll(l, cmds).lost)
            && (PostAll(l, cmds).lost && !l.lost ==> !PostAll(l, cmds).lit)
  {
    var (a, cmds) := Abandon(c, x, st);
    if cmds != [] { PostAllOne(l, cmds[0]); }
  }

  lemma SilentBooks(c: Config, x: Sample, st: State, l: Ledger)
    requires Books(st, l) && st.wasEnabled && st.irVerdictAt != 0 && st.booted
    ensures Sound(st, DecideSilent(c, x, st), l)
  {
    PostAllOne(l, IrOn(c.hasIrCmd && x.onOk));
  }

  lemma BlindBooks(x: Sample, st: State, l: Ledger)
    requires Books(st, l) && st.wasEnabled && st.enforceAt == 0
    ensures Sound(st, DecideBlind(x, st), l)
  {}

  lemma FramingBooks(st: State, l: Ledger)
    requires Books(st, l) && st.wasEnabled && st.enforceAt == 0 && !st.booted
    ensures Books(BootFraming(st), l) && SameControl(BootFraming(st),
              st.(booted := true, cur := Night, ref := -1.0, refDue := 0))
  {}

  lemma BootBooks(c: Config, x: Sample, st: State, l: Ledger)
    requires Books(st, l) && st.wasEnabled && st.enforceAt == 0 && !st.booted
    ensures Sound(st, DecideBoot(c, x, st), l)
  {
    FramingBooks(st, l);
  }

  lemma AudibleBooks(c: Config, x: Sample, st: State, l: Ledger)
    requires Books(st, l) && st.wasEnabled && st.enforceAt == 0 && st.verdictAt != 0
    ensures Sound(st, DecideAudible(c, x, st), l)
  {}

  lemma DayBooks(c: Config, x: Sample, st: State, l: Ledger)
    requires Books(st, l) && st.wasEnabled && 0 < x.now && st.cur == Day && st.booted && st.enforceAt == 0
    ensures Sound(st, DecideDay(c, x, st), l)
  {}

  lemma TriggersFrame(c: Config, x: Sample, st: State)
    ensures var a := NightTriggers(c, x, st).0;
            && SameControl(st.(ref := a.ref, trigSince := a.trigSince, probeReq := a.probeReq, hbAt := a.hbAt), a)
            && a.hbAt == (if st.hbAt == 0 then x.now + c.heartbeatS * 1000 else st.hbAt)
  {}

  lemma HeartbeatBooks(c: Config, x: Sample, st: State, want: bool, l: Ledger)
    requires Books(st, l) && st.wasEnabled && st.enforceAt == 0 && st.booted
    ensures Sound(st, Heartbeat(c, x, st, want), l)
  {}

  lemma NightBooks(c: Config, x: Sample, st: State, l: Ledger)
    requires Books(st, l) && st.wasEnabled && 0 < x.now && st.enforceAt == 0 && st.booted
    ensures Sound(st, DecideNight(c, x, st), l)
  {
    TriggersFrame(c, x, st);
    var (a, want) := NightTriggers(c, x, st);
    HeartbeatBooks(c, x, a, want, l);
  }

  lemma RunningBooks(c: Config, x: Sample, st: State, l: Ledger)
    requires Books(st, l) && st.wasEnabled && 0 < x.now && st.enforceAt == 0 && st.booted
    ensures Sound(st, DecideRunning(c, x, st), l)
  {
    if st.irVerdictAt != 0 && x.now >= st.irVerdictAt {
      SilentBooks(c, x, st, l);
    } else if st.verdictAt != 0 && x.now >= st.verdictAt {
      AudibleBooks(c, x, st, l);
    } else if st.cur == Day {
      DayBooks(c, x, st, l);
    } else if st.cur == Night {
      NightBooks(c, x, st, l);
    }
  }

  lemma DecideBooks(c: Config, x: Sample, st: State, l: Ledger)
    requires Books(st, l) && st.wasEnabled && 0 < x.now
    ensures Sound(st, Decide(c, x, st), l)
  {
    if st.enforceAt != 0 {
    } else if c.schedule {
      AbandonBooks(c, x, st, l);
    } else if x.d <= 0.0 {
      BlindBooks(x, st, l);
    } else if !st.booted {
      BootBooks(c, x, st, l);
    } else {
      RunningBooks(c, x, st, l);
    }
  }

  /** What a commit adds to the log: at most one drive, towards the mode decided. */
  predicate Committed(x: Sample, p: Plan, r: State, before: Ledger, after: Ledger) {
    && Books(r, after) && r.wasEnabled
    && (if r.cur == p.st.cur && r.modeSince == p.st.modeSince && after.board == before.board
        then r.enforceAt == p.st.enforceAt else after.board == r.cur && r.enforceAt == 0)
    && (if after.probes == before.probes then r.lastProbe == p.st.lastProbe
        else after.probes == before.probes + [x.now] && r.lastProbe == x.now)
    && (after.lost == before.lost)
    && (r.irVerdictAt == 0 ==> after.lit == before.lit)
  }

  lemma CommitLoudBooks(c: Config, x: Sample, p: Plan, l: Ledger)
    requires Books(p.st, PostAll(l, p.cmds)) && p.st.wasEnabled
    requires p.wantProbe ==> p.st.enforceAt == 0 && p.st.booted
    requires p.target != p.st.cur && p.target != Unknown ==> p.st.irVerdictAt == 0 && p.st.enforceAt == 0
    requires 0 < x.now
    ensures var (r, cmds) := CommitLoud(c, x, p);
            Committed(x, p, r, PostAll(l, p.cmds), PostAll(l, cmds))
  {
    if MayAudible(c, x, p) {
      PostAllOne(PostAll(l, p.cmds), Drive(Day, Probe, x.now));
      PostAllConcat(l, p.cmds, [Drive(Day, Probe, x.now)]);
    } else if MaySwitch(x, p) {
      PostAllOne(PostAll(l, p.cmds), Drive(p.target, Commit, x.now));
      PostAllConcat(l, p.cmds, [Drive(p.target, Commit, x.now)]);
    }
  }

  lemma CommitBooks(c: Config, x: Sample, st: State, p: Plan, l: Ledger)
    requires Sound(st, p, l) && 0 < x.now
    ensures var (r, cmds) := CommitPlan(c, x, p);
            Committed(x, p, r, PostAll(l, p.cmds), PostAll(l, cmds))
    ensures PostAll(l, p.cmds).lost && !l.lost ==> CommitPlan(c, x, p).0.irVerdictAt == 0
  {
    if !MaySilent(c, x, p) {
      CommitLoudBooks(c, x, p, l);
    } else {
      var off := [IrOff(x.offOk)];
      PostAllOne(PostAll(l, p.cmds), IrOff(x.offOk));
      PostAllConcat(l, p.cmds, off);
      if !x.offOk {
        CommitLoudBooks(c, x, p.(st := SilentFailed(p.st), cmds := p.cmds + off), l);
      }
    }
  }

  /** The relation between the ledgers around one iteration. */
  predicate Ticked(c: Config, x: Sample, st: State, l: Ledger, r: State, after: Ledger) {
    && Books(r, after) && r.wasEnabled == c.enabled
    && (l.lost ==> after.lost)
    && (after.lost && !l.lost ==> !after.lit && r.irVerdictAt == 0)
    && (st.wasEnabled && c.enabled ==>
          if after.probes == l.probes then r.lastProbe == st.lastProbe
          else after.probes == l.probes + [x.now] && r.lastProbe == x.now)
  }

  lemma DisableBooks(c: Config, x: Sample, st: State, l: Ledger)
    requires Books(st, l) && !c.enabled
    ensures var (r, cmds) := Tick(c, x, st); Ticked(c, x, st, l, r, PostAll(l, cmds))
  {
    var v := Receive(c, x, st);
    var r := v.(wasEnabled := false, cur := Unknown, s := -1.0, stableN := 0,
                ref := -1.0, refDue := 0, trigSince := 0, darkSince := 0,
                verdictAt := 0, hbAt := 0, modeSince := 0, preProbe := -1.0, preProbeHr := -1);
    var (a, cmds) := Abandon(c, x, ForgetScene(r));
    if cmds != [] { PostAllOne(l, cmds[0]); }
  }

  /** The measured part of an enabled iteration, seen from the ledger. */
  predicate Gated(st: State, l: Ledger, m: State, l1: Ledger) {
    && Books(m, l1) && m.wasEnabled
    && l1.probes == l.probes && l1.lit == l.lit && l1.lost == l.lost
    && (st.wasEnabled ==> m.lastProbe == st.lastProbe)
  }

  lemma MeasuredBooks(c: Config, x: Sample, st: State, l: Ledger)
    requires Books(st, l) && 0 < x.now
    ensures var (m, gate) := Measured(c, x, st); Gated(st, l, m, PostAll(l, gate))
  {
    EnableBooks(c, x, st, l);
    GateBooks(x, Smooth(c, x, Enable(x, Receive(c, x, st))), l);
  }

  lemma Compose(c: Config, x: Sample, st: State, l: Ledger, m: State, l1: Ledger, p: Plan, r: State, after: Ledger)
    requires Gated(st, l, m, l1) && Sound(m, p, l1) && c.enabled
    requires Committed(x, p, r, PostAll(l1, p.cmds), after)
    requires PostAll(l1, p.cmds).lost && !l1.lost ==> r.irVerdictAt == 0
    ensures Ticked(c, x, st, l, r, after)
  {}

  /** One iteration keeps the books, whatever it is handed. */
  lemma TickBooks(c: Config, x: Sample, st: State, l: Ledger)
    requires Books(st, l) && 0 < x.now
    ensures var (r, cmds) := Tick(c, x, st); Ticked(c, x, st, l, r, PostAll(l, cmds))
  {
    if !c.enabled {
      DisableBooks(c, x, st, l);
    } else {
      var (m, gate) := Measured(c, x, st);
      var l1 := PostAll(l, gate);
      MeasuredBooks(c, x, st, l);
      var p := Decide(c, x, m);
      DecideBooks(c, x, m, l1);
      var (r, cmds) := CommitPlan(c, x, p);
      CommitBooks(c, x, m, p, l1);
      PostAllConcat(l, gate, cmds);
      Compose(c, x, st, l, m, l1, p, r, PostAll(l1, cmds));
    }
  }

  lemma {:induction false} RunBooks(st: State, l: Ledger, steps: seq<Step>, from: int)
    requires Books(st, l) && Clocked(steps, from)
    ensures Books(Run(st, steps).0, PostAll(l, Run(st, steps).1))
    decreases |steps|
  {
    if steps != [] {
      var last := steps[|steps| - 1];
      var (a, before) := Run(st, steps[..|steps| - 1]);
      RunBooks(st, l, steps[..|steps| - 1], from);
      TickBooks(last.c, last.x, a, PostAll(l, before));
      PostAllConcat(l, before, Tick(last.c, last.x, a).1);
    }
  }

  /** The account a run from start-up leaves behind. */
  function Account(steps: seq<Step>, from: int): Ledger {
    PostAll(BLANK, Run(Start(from), steps).1)
  }

  /** At the end of every run, through disabling, schedule mode and re-enabling: the
      illuminator has been switched off and not answered exactly while a verdict is
      pending, offs and ons alternate, a silent verdict is pending only in night and
      never during a forced cycle, an audible one only in day. */
  lemma IlluminatorAnswered(steps: seq<Step>, from: int)
    requires Clocked(steps, from)
    ensures var st, l := Run(Start(from), steps).0, Account(steps, from);
            && l.paired && l.owed == (st.irVerdictAt != 0)
            && (st.irVerdictAt != 0 ==> st.cur == Night && st.enforceAt == 0)
            && (st.verdictAt != 0 ==> st.cur == Day)
  {
    RunBooks(Start(from), BLANK, steps, from);
  }

  /** Stopping the thread answers the last "off", too. */
  lemma StopAnswers(steps: seq<Step>, from: int, c: Config, x: Sample)
    requires Clocked(steps, from)
    ensures var (st, cmds) := Stop(c, x, Run(Start(from), steps).0);
            var l := PostAll(Account(steps, from), cmds);
            st.irVerdictAt == 0 && l.paired && !l.owed && (!l.lost ==> l.lit)
  {
    RunBooks(Start(from), BLANK, steps, from);
    AbandonBooks(c, x, Run(Start(from), steps).0, Account(steps, from));
  }

  /** Each commit buys at most one counter-cycle and each cycle at most one return. */
  lemma DriveBudget(steps: seq<Step>, from: int)
    requires Clocked(steps, from)
    ensures var l := Account(steps, from);
            && l.backs <= l.counters <= l.commits
            && l.Drives() <= 3 * l.commits
  {
    RunBooks(Start(from), BLANK, steps, from);
  }

  // ------------------------------------------------------------------
  // The illuminator itself

  /** The illuminator was last switched off exactly while a verdict is pending. */
  predicate LightAgrees(st: State, l: Ledger) {
    l.lit == (st.irVerdictAt == 0)
  }

  /** ... at every loop boundary of a run. */
  predicate LightAgreesThroughout(st: State, l: Ledger, steps: seq<Step>)
    decreases |steps|
  {
    && LightAgrees(Run(st, steps).0, PostAll(l, Run(st, steps).1))
    && (steps == [] || LightAgreesThroughout(st, l, steps[..|steps| - 1]))
  }

  lemma {:induction false} LightRun(st: State, l: Ledger, steps: seq<Step>, from: int)
    requires Books(st, l) && !l.lost && Clocked(steps, from)
    ensures LightAgreesThroughout(st, l, steps) <==> !PostAll(l, Run(st, steps).1).lost
    decreases |steps|
  {
    RunBooks(st, l, steps, from);
    if steps != [] {
      var init, last := steps[..|steps| - 1], steps[|steps| - 1];
      var (a, before) := Run(st, init);
      RunBooks(st, l, init, from);
      LightRun(st, l, init, from);
      TickBooks(last.c, last.x, a, PostAll(l, before));
      PostAllConcat(l, before, Tick(last.c, last.x, a).1);
    }
  }

  /** The loop ignores whether "on" succeeded. The illuminator and the pending verdict
      agree at every boundary of a run if and only if no "on" command failed in it. */
  lemma LightAgreesUnlessRelightFails(steps: seq<Step>, from: int)
    requires Clocked(steps, from)
    ensures LightAgreesThroughout(Start(from), BLANK, steps)
            <==> IrOn(false) !in Run(Start(from), steps).1
  {
    LightRun(Start(from), BLANK, steps, from);
    LostMeansFailedOn(BLANK, Run(Start(from), steps).1);
  }

  lemma {:induction false} LostMeansFailedOn(l: Ledger, cmds: seq<Command>)
    ensures PostAll(l, cmds).lost <==> l.lost || IrOn(false) in cmds
    decreases |cmds|
  {
    if cmds != [] {
      var init, last := cmds[..|cmds| - 1], cmds[|cmds| - 1];
      LostMeansFailedOn(l, init);
      assert cmds == init + [last];
    }
  }

  /** The failing family: whatever else holds, a pending verdict dropped by a disabled
      iteration whose "on" fails leaves the camera dark with nothing pending. */
  lemma FailedRelightStaysDark(c: Config, x: Sample, st: State, l: Ledger)
    requires Books(st, l) && !l.lost && st.irVerdictAt != 0 && 0 < x.now
    requires !c.enabled && !(c.hasIrCmd && x.onOk)
    ensures var (r, cmds) := Tick(c, x, st);
            r.irVerdictAt == 0 && !PostAll(l, cmds).lit && cmds == [IrOn(false)]
  {
    TickBooks(c, x, st, l);
    PostAllOne(l, IrOn(false));
  }

  // ------------------------------------------------------------------
  // When a pending "off" is answered

  /** The iteration neither leaves auto mode nor can read the exposure. */
  predicate Blind(c: Config, x: Sample) {
    c.enabled && !c.schedule && x.d <= 0.0
  }

  lemma DueMeasured(c: Config, x: Sample, st: State, l: Ledger)
    requires Books(st, l) && 0 < x.now && st.irVerdictAt != 0
    ensures var m := Measured(c, x, st).0;
            m.irVerdictAt == st.irVerdictAt && m.enforceAt == 0 && m.booted && m.cur == Night
  {
    SmoothFrame(c, x, Enable(x, Receive(c, x, st)));
  }

  /** The plan in a due verdict keeps it exactly when the iteration is blind, and then
      it wants nothing else. */
  lemma DuePlanned(c: Config, x: Sample, m: State)
    requires c.enabled && m.irVerdictAt != 0 && x.now >= m.irVerdictAt
    requires m.enforceAt == 0 && m.booted && m.cur == Night
    ensures var p := Decide(c, x, m);
            if Blind(c, x) then p == Hold(m) else p.st.irVerdictAt == 0 && (p.wantProbe ==> p.noSilent)
  {}

  lemma DueCommitted(c: Config, x: Sample, p: Plan)
    requires p.wantProbe ==> p.noSilent
    ensures var r := CommitPlan(c, x, p).0;
            if p.st.irVerdictAt == 0 then r.irVerdictAt == 0
            else p.target == p.st.cur && !p.wantProbe ==> r.irVerdictAt == p.st.irVerdictAt
  {}

  /** An "off" whose verdict is due is answered by this iteration if and only if the
      automaton is disabled, follows the calendar or can read the exposure. */
  lemma DueIsAnswered(c: Config, x: Sample, st: State, l: Ledger)
    requires Books(st, l) && 0 < x.now && st.irVerdictAt != 0 && x.now >= st.irVerdictAt
    ensures var (r, cmds) := Tick(c, x, st);
            && (r.irVerdictAt == 0 <==> !Blind(c, x))
            && (Blind(c, x) ==> r.irVerdictAt == st.irVerdictAt)
            && (!PostAll(l, cmds).owed <==> !Blind(c, x))
  {
    TickBooks(c, x, st, l);
    if c.enabled {
      DueMeasured(c, x, st, l);
      DuePlanned(c, x, Measured(c, x, st).0);
      DueCommitted(c, x, Planned(c, x, st));
    }
  }

  /** No iteration arms a silent verdict before its settling time. */
  lemma Rearmed(c: Config, x: Sample, st: State)
    ensures var r := Tick(c, x, st).0;
            r.irVerdictAt == 0 || r.irVerdictAt == st.irVerdictAt || r.irVerdictAt == x.now + SETTLE_MS
  {
    if c.enabled {
      SmoothFrame(c, x, Enable(x, Receive(c, x, st)));
      var m := Measured(c, x, st).0;
      assert m.irVerdictAt == 0 || m.irVerdictAt == st.irVerdictAt;
      DecideArms(c, x, m);
      CommitArms(c, x, Decide(c, x, m));
    }
  }

  lemma DecideArms(c: Config, x: Sample, m: State)
    ensures Decide(c, x, m).st.irVerdictAt in {0, m.irVerdictAt}
  {
    if m.enforceAt == 0 && !c.schedule && x.d > 0.0 && m.booted { RunningArms(c, x, m); }
  }

  lemma RunningArms(c: Config, x: Sample, m: State)
    ensures DecideRunning(c, x, m).st.irVerdictAt in {0, m.irVerdictAt}
  {
    SilentArms(c, x, m);
    AudibleArms(c, x, m);
    DayArms(c, x, m);
    NightArms(c, x, m);
  }

  lemma SilentArms(c: Config, x: Sample, m: State)
    ensures DecideSilent(c, x, m).st.irVerdictAt == 0
  {}

  lemma AudibleArms(c: Config, x: Sample, m: State)
    ensures DecideAudible(c, x, m).st.irVerdictAt == m.irVerdictAt
  {}

  lemma DayArms(c: Config, x: Sample, m: State)
    ensures DecideDay(c, x, m).st.irVerdictAt == m.irVerdictAt
  {}

  lemma NightArms(c: Config, x: Sample, m: State)
    ensures DecideNight(c, x, m).st.irVerdictAt == m.irVerdictAt
  {
    TriggersFrame(c, x, m);
  }

  lemma CommitArms(c: Config, x: Sample, p: Plan)
    ensures CommitPlan(c, x, p).0.irVerdictAt in {0, p.st.irVerdictAt, x.now + SETTLE_MS}
  {}

  predicate AllBlind(steps: seq<Step>)
    decreases |steps|
  {
    steps == [] || (Blind(steps[|steps| - 1].c, steps[|steps| - 1].x) && AllBlind(steps[..|steps| - 1]))
  }

  /** Over every run that begins past the deadline the same "off" is still unanswered if
      and only if every iteration was blind: unreadable samples postpone the answer without
      bound, and the first iteration that is not blind gives it. */
  lemma {:induction false} AnsweredAtFirstSight(st: State, l: Ledger, steps: seq<Step>, from: int)
    requires Books(st, l) && st.irVerdictAt != 0 && st.irVerdictAt <= from && Clocked(steps, from)
    ensures var r := Run(st, steps).0;
            && (r.irVerdictAt == st.irVerdictAt <==> AllBlind(steps))
            && (!AllBlind(steps) ==> r.irVerdictAt == 0 || r.irVerdictAt > st.irVerdictAt)
    decreases |steps|
  {
    if steps != [] {
      var init, last := steps[..|steps| - 1], steps[|steps| - 1];
      var a := Run(st, init).0;
      AnsweredAtFirstSight(st, l, init, from);
      if AllBlind(init) {
        RunBooks(st, l, init, from);
        DueIsAnswered(last.c, last.x, a, PostAll(l, Run(st, init).1));
      } else {
        Rearmed(last.c, last.x, a);
      }
    }
  }

  // ------------------------------------------------------------------
  // The audible ration

  /** Consecutive audible probes are at least `gap` seconds apart. */
  predicate Rationed(probes: seq<int>, gap: int) {
    forall i :: 0 < i < |probes| ==> probes[i] - probes[i - 1] >= gap * 1000
  }

  predicate StillEnabled(steps: seq<Step>, gap: int) {
    forall i :: 0 <= i < |steps| ==> steps[i].c.enabled && gap <= steps[i].c.probeMinGapS
  }

  lemma CommitProbe(c: Config, x: Sample, p: Plan, l: Ledger)
    requires Books(p.st, PostAll(l, p.cmds)) && 0 < x.now
    ensures var (r, cmds) := CommitPlan(c, x, p);
            PostAll(l, cmds).probes != PostAll(l, p.cmds).probes ==>
              p.st.lastProbe == 0 || x.now - p.st.lastProbe >= c.probeMinGapS * 1000
  {
    PostAllOne(PostAll(l, p.cmds), IrOff(x.offOk));
    PostAllConcat(l, p.cmds, [IrOff(x.offOk)]);
    PostAllOne(PostAll(l, p.cmds), Drive(p.target, Commit, x.now));
    PostAllConcat(l, p.cmds, [Drive(p.target, Commit, x.now)]);
    var q := p.(cmds := p.cmds + [IrOff(x.offOk)]);
    PostAllOne(PostAll(l, q.cmds), Drive(p.target, Commit, x.now));
    PostAllConcat(l, q.cmds, [Drive(p.target, Commit, x.now)]);
  }

  lemma TickProbe(c: Config, x: Sample, st: State, l: Ledger)
    requires Books(st, l) && 0 < x.now && st.wasEnabled && c.enabled
    ensures var (r, cmds) := Tick(c, x, st);
            PostAll(l, cmds).probes != l.probes ==>
              st.lastProbe == 0 || x.now - st.lastProbe >= c.probeMinGapS * 1000
  {
    var (m, gate) := Measured(c, x, st);
    var l1 := PostAll(l, gate);
    MeasuredBooks(c, x, st, l);
    var p := Decide(c, x, m);
    DecideBooks(c, x, m, l1);
    CommitProbe(c, x, p, l1);
    PostAllConcat(l, gate, CommitPlan(c, x, p).1);
  }

  predicate RationKept(st: State, l: Ledger, gap: int) {
    && Books(st, l) && st.wasEnabled && Rationed(l.probes, gap)
    && (l.probes != [] ==> l.probes[|l.probes| - 1] == st.lastProbe != 0)
  }

  lemma RationStep(a: State, l: Ledger, last: Step, gap: int)
    requires RationKept(a, l, gap) && 0 < last.x.now && last.c.enabled && gap <= last.c.probeMinGapS
    ensures var (r, cmds) := Tick(last.c, last.x, a); RationKept(r, PostAll(l, cmds), gap)
  {
    TickBooks(last.c, last.x, a, l);
    TickProbe(last.c, last.x, a, l);
    var (r, cmds) := Tick(last.c, last.x, a);
    RationCompose(last.c, last.x, a, l, r, PostAll(l, cmds), gap);
  }

  lemma RationCompose(c: Config, x: Sample, a: State, l: Ledger, r: State, after: Ledger, gap: int)
    requires RationKept(a, l, gap) && Ticked(c, x, a, l, r, after)
    requires 0 < x.now && c.enabled && gap <= c.probeMinGapS
    requires after.probes != l.probes ==> a.lastProbe == 0 || x.now - a.lastProbe >= c.probeMinGapS * 1000
    ensures RationKept(r, after, gap)
  {}

  lemma {:induction false} RationRun(st: State, l: Ledger, steps: seq<Step>, from: int, gap: int)
    requires Books(st, l) && st.wasEnabled && l.probes == []
    requires Clocked(steps, from) && StillEnabled(steps, gap)
    ensures var (r, cmds) := Run(st, steps); RationKept(r, PostAll(l, cmds), gap)
    decreases |steps|
  {
    if steps != [] {
      var init, last := steps[..|steps| - 1], steps[|steps| - 1];
      var (a, before) := Run(st, init);
      RationRun(st, l, init, from, gap);
      RationStep(a, PostAll(l, before), last, gap);
      PostAllConcat(l, before, Tick(last.c, last.x, a).1);
    }
  }

  lemma {:induction false} RationSpread(probes: seq<int>, gap: int, i: nat, j: nat)
    requires Rationed(probes, gap) && i <= j < |probes|
    ensures probes[j] - probes[i] >= (j - i) * gap * 1000
  {
    if i < j {
      RationSpread(probes, gap, i, j - 1);
      assert (j - i) * gap == (j - 1 - i) * gap + gap;
    }
  }

  /** Over any stretch of iterations that stays enabled, following any run, the n-th
      audible probe comes at least n - m gaps after the m-th, so the number of motor
      probes is a property of the configuration alone. */
  lemma AudibleRation(before: seq<Step>, steps: seq<Step>, from: int, gap: int, m: nat, n: nat)
    requires Clocked(before, from) && Clocked(steps, from) && StillEnabled(steps, gap)
    requires Run(Start(from), before).0.wasEnabled
    requires m <= n < |PostAll(BLANK, Run(Run(Start(from), before).0, steps).1).probes|
    ensures var probes := PostAll(BLANK, Run(Run(Start(from), before).0, steps).1).probes;
            probes[n] - probes[m] >= (n - m) * gap * 1000
  {
    var st := Run(Start(from), before).0;
    RunBooks(Start(from), BLANK, before, from);
    var l := Account(before, from).(probes := []);
    RationRun(st, l, steps, from, gap);
    ProbesOnly(BLANK, l, Run(st, steps).1);
    RationSpread(PostAll(l, Run(st, steps).1).probes, gap, m, n);
  }

  lemma {:induction false} ProbesOnly(a: Ledger, b: Ledger, cmds: seq<Command>)
    requires a.probes == b.probes
    ensures PostAll(a, cmds).probes == PostAll(b, cmds).probes
    decreases |cmds|
  {
    if cmds != [] { ProbesOnly(a, b, cmds[..|cmds| - 1]); }
  }

  // ------------------------------------------------------------------
  // The board shows the decided mode

  /** Outside a forced cycle the last mode driven is the decided one; inside it is the
      opposite one. */
  predicate BoardAgrees(st: State, l: Ledger) {
    st.cur != Unknown ==> l.board == if st.enforceAt != 0 then Opposite(st.cur) else st.cur
  }

  /** Boot is settled in this iteration by a measurement, which is framed as night. */
  predicate BootMeasures(c: Config, x: Sample, m: State) {
    && m.enforceAt == 0 && !c.schedule && x.d > 0.0 && !m.booted
    && x.now - m.bootAt >= BOOT_SETTLE_MS
    && (m.stableN >= STABLE_N || x.now - m.bootAt >= STABLE_MAX_MS)
    && (c.bootProbe || x.headroom == 0)
  }

  /** Boot frames its measurement as a probe from night, but a calendar switch less than
      a dwell ago keeps the probe from being driven. */
  predicate BootCut(c: Config, x: Sample, m: State) {
    && c.enabled && BootMeasures(c, x, m)
    && m.cur == Day && !DwellOver(m, x.now)
  }

  lemma GateReturnBoard(x: Sample, st: State, l: Ledger)
    requires Books(st, l) && BoardAgrees(st, l)
    ensures var (a, cmds) := GateReturn(x, st); BoardAgrees(a, PostAll(l, cmds))
  {
    var (a, cmds) := GateReturn(x, st);
    if cmds != [] { PostAllOne(l, cmds[0]); }
  }

  lemma GateVerifyBoard(x: Sample, st: State, l: Ledger)
    requires Books(st, l) && BoardAgrees(st, l) && 0 < x.now
    ensures var (b, cmds) := GateVerify(x, st); BoardAgrees(b, PostAll(l, cmds))
  {
    var (b, cmds) := GateVerify(x, st);
    if cmds != [] { PostAllOne(l, cmds[0]); }
  }

  lemma GateBoard(x: Sample, st: State, l: Ledger)
    requires Books(st, l) && BoardAgrees(st, l) && 0 < x.now
    ensures var (m, gate) := Gate(x, st); BoardAgrees(m, PostAll(l, gate))
  {
    var (a, c1) := GateReturn(x, st);
    GateReturnBooks(x, st, l);
    GateReturnBoard(x, st, l);
    GateVerifyBoard(x, a, PostAll(l, c1));
    PostAllConcat(l, c1, GateVerify(x, a).1);
  }

  lemma DecideCur(c: Config, x: Sample, m: State, l: Ledger)
    requires Books(m, l) && m.wasEnabled && 0 < x.now
    ensures var p := Decide(c, x, m);
            p.st.cur != m.cur ==> p == Plan(BootFraming(m), [], m.cur, false, true, true)
                                  && BootMeasures(c, x, m)
  {
    if m.booted {
      DecideBooks(c, x, m, l);
    } else if m.enforceAt == 0 && !c.schedule && x.d > 0.0 {
      assert Decide(c, x, m) == DecideBoot(c, x, m);
    } else {
      assert Decide(c, x, m).st.cur == m.cur;
    }
  }

  lemma BootProbe(c: Config, x: Sample, m: State, l: Ledger)
    requires Books(m, l) && m.wasEnabled && !m.booted && m.enforceAt == 0 && 0 < x.now && m.cur != Night
    ensures var p := Plan(BootFraming(m), [], m.cur, false, true, true);
            var (r, cmds) := CommitPlan(c, x, p);
            if DwellOver(m, x.now) then r.cur == Day && r.enforceAt == 0 && PostAll(l, cmds).board == Day
            else r == BootFraming(m) && cmds == []
  {
    FramingBooks(m, l);
    var p := Plan(BootFraming(m), [], m.cur, false, true, true);
    if DwellOver(m, x.now) {
      assert MayAudible(c, x, p);
      assert [] + [Drive(Day, Probe, x.now)] == [Drive(Day, Probe, x.now)];
      PostAllOne(l, Drive(Day, Probe, x.now));
    }
  }

  lemma EnabledBoard(c: Config, x: Sample, m: State, l: Ledger)
    requires Books(m, l) && BoardAgrees(m, l) && m.wasEnabled && c.enabled && 0 < x.now
    ensures var (r, cmds) := CommitPlan(c, x, Decide(c, x, m));
            BoardAgrees(r, PostAll(l, cmds)) <==> !BootCut(c, x, m)
  {
    var p := Decide(c, x, m);
    DecideBooks(c, x, m, l);
    DecideCur(c, x, m, l);
    CommitBooks(c, x, m, p, l);
    if p.st.cur != m.cur {
      BootProbe(c, x, m, l);
    } else {
      PlainBoard(c, x, m, l, p, CommitPlan(c, x, p).0, PostAll(l, CommitPlan(c, x, p).1));
      assert BootCut(c, x, m) ==> p == DecideBoot(c, x, m);
    }
  }

  lemma PlainBoard(c: Config, x: Sample, m: State, l: Ledger, p: Plan, r: State, after: Ledger)
    requires BoardAgrees(m, l) && Sound(m, p, l) && p.st.cur == m.cur
    requires Committed(x, p, r, PostAll(l, p.cmds), after)
    ensures BoardAgrees(r, after)
  {}

  lemma MeasuredBoard(c: Config, x: Sample, st: State, l: Ledger)
    requires Books(st, l) && BoardAgrees(st, l) && 0 < x.now
    ensures var (m, gate) := Measured(c, x, st); BoardAgrees(m, PostAll(l, gate))
  {
    EnableBooks(c, x, st, l);
    SmoothFrame(c, x, Enable(x, Receive(c, x, st)));
    GateBoard(x, Smooth(c, x, Enable(x, Receive(c, x, st))), l);
  }

  /** One iteration keeps the board and the decided mode together, except for a boot
      measurement cut off by the dwell. */
  lemma TickBoard(c: Config, x: Sample, st: State, l: Ledger)
    requires Books(st, l) && BoardAgrees(st, l) && 0 < x.now
    ensures var (r, cmds) := Tick(c, x, st);
            BoardAgrees(r, PostAll(l, cmds)) <==> !BootCut(c, x, Measured(c, x, st).0)
  {
    if c.enabled {
      var (m, gate) := Measured(c, x, st);
      MeasuredBoard(c, x, st, l);
      MeasuredBooks(c, x, st, l);
      EnabledBoard(c, x, m, PostAll(l, gate));
      PostAllConcat(l, gate, CommitPlan(c, x, Decide(c, x, m)).1);
    } else {
      assert Disable(c, x, Receive(c, x, st)).0.cur == Unknown;
    }
  }

  predicate BoardAgreesThroughout(st: State, l: Ledger, steps: seq<Step>)
    decreases |steps|
  {
    && BoardAgrees(Run(st, steps).0, PostAll(l, Run(st, steps).1))
    && (steps == [] || BoardAgreesThroughout(st, l, steps[..|steps| - 1]))
  }

  /** Some iteration of the run cut off a boot measurement. */
  predicate SomeBootCut(st: State, steps: seq<Step>)
    decreases |steps|
  {
    steps != [] &&
    var init, last := steps[..|steps| - 1], steps[|steps| - 1];
    SomeBootCut(st, init) || BootCut(last.c, last.x, Measured(last.c, last.x, Run(st, init).0).0)
  }

  lemma {:induction false} BoardRun(st: State, l: Ledger, steps: seq<Step>, from: int)
    requires Books(st, l) && BoardAgrees(st, l) && Clocked(steps, from)
    ensures BoardAgreesThroughout(st, l, steps) <==> !SomeBootCut(st, steps)
    decreases |steps|
  {
    if steps != [] {
      var init, last := steps[..|steps| - 1], steps[|steps| - 1];
      var (a, before) := Run(st, init);
      RunBooks(st, l, init, from);
      BoardRun(st, l, init, from);
      PostAllConcat(l, before, Tick(last.c, last.x, a).1);
      if !SomeBootCut(st, init) {
        TickBoard(last.c, last.x, a, PostAll(l, before));
      }
    }
  }

  /** At every boundary of a run the board was last driven to the decided mode (or to its
      opposite inside a forced cycle) if and only if no boot measurement was cut off by
      the dwell of a calendar switch. */
  lemma BoardFollowsDecision(steps: seq<Step>, from: int)
    requires Clocked(steps, from)
    ensures BoardAgreesThroughout(Start(from), BLANK, steps) <==> !SomeBootCut(Start(from), steps)
  {
    BoardRun(Start(from), BLANK, steps, from);
  }

  // A run in which it happens: enabled in schedule mode, day by the calendar after two
  // minutes, auto mode one second later. The automaton then counts as night and the board
  // was last driven to day.

  const CUT_CONFIG: Config := Config(true, true, 768.0, 4096.0, 30, 600, 15, 14400, 43200, true, 2000, true)
  const CUT_SAMPLE: Sample := Sample(1, 100.0, true, 64, Day, false, Unknown, -1, false, true, true)

  predicate AwaitsBoot(st: State) {
    && st.wasEnabled && !st.booted && st.bootAt == 1 && st.verifyAt == 0 && st.enforceAt == 0
    && st.irVerdictAt == 0 && st.verdictAt == 0 && st.lastProbe == 0
  }

  lemma CutFirst()
    ensures var (r, cmds) := Tick(CUT_CONFIG, CUT_SAMPLE, Start(1));
            AwaitsBoot(r) && r.cur == Unknown && r.modeSince == 0 && cmds == []
  {
    SmoothFrame(CUT_CONFIG, CUT_SAMPLE, Enable(CUT_SAMPLE, Start(1)));
  }

  lemma CutSecond(st: State)
    requires AwaitsBoot(st) && st.cur == Unknown && st.modeSince == 0
    ensures var x := CUT_SAMPLE.(now := 120000, calendar := Day);
            var (r, cmds) := Tick(CUT_CONFIG, x, st);
            && r.cur == Day && r.modeSince == 120000 && !r.booted && r.wasEnabled && r.bootAt == 1
            && r.enforceAt == 0 && r.irVerdictAt == 0 && r.lastProbe == 0
            && r.verifyAt == 138000
            && cmds == [Drive(Day, Commit, 120000)]
  {
    SmoothFrame(CUT_CONFIG, CUT_SAMPLE.(now := 120000, calendar := Day), st);
  }

  lemma CutThird(st: State)
    requires st.cur == Day && st.modeSince == 120000 && !st.booted && st.wasEnabled && st.bootAt == 1
    requires st.enforceAt == 0 && st.irVerdictAt == 0 && st.lastProbe == 0 && st.verifyAt == 138000
    ensures var c, x := CUT_CONFIG.(schedule := false), CUT_SAMPLE.(now := 121000);
            var (r, cmds) := Tick(c, x, st);
            BootCut(c, x, Measured(c, x, st).0) && r.cur == Night && cmds == []
  {
    var c, x := CUT_CONFIG.(schedule := false), CUT_SAMPLE.(now := 121000);
    SmoothFrame(c, x, st);
    SmoothBoot(c, x, st);
    var m := Measured(c, x, st).0;
    assert m.cur == Day && m.modeSince == 120000 && m.bootAt == 1 && !m.booted && m.enforceAt == 0;
    assert Decide(c, x, m) == DecideBoot(c, x, m) == Plan(BootFraming(m), [], Day, false, true, true);
  }

  lemma SmoothBoot(c: Config, x: Sample, st: State)
    ensures Smooth(c, x, st).bootAt == st.bootAt
  {}

  function CutSteps(): (steps: seq<Step>) {
    [Step(CUT_CONFIG, CUT_SAMPLE), Step(CUT_CONFIG, CUT_SAMPLE.(now := 120000, calendar := Day)),
     Step(CUT_CONFIG.(schedule := false), CUT_SAMPLE.(now := 121000))]
  }

  lemma RunLast(st: State, steps: seq<Step>, init: seq<Step>, last: Step, a: State, before: seq<Command>)
    requires steps == init + [last] && Run(st, init) == (a, before)
    ensures Run(st, steps) == (Tick(last.c, last.x, a).0, before + Tick(last.c, last.x, a).1)
    ensures BootCut(last.c, last.x, Measured(last.c, last.x, a).0) ==> SomeBootCut(st, steps)
  {
    assert steps[..|steps| - 1] == init;
  }

  lemma RunFirst(st: State, steps: seq<Step>, first: Step)
    requires steps == [first]
    ensures Run(st, steps) == Tick(first.c, first.x, st)
  {
    assert [] + [first] == steps;
    RunLast(st, steps, [], first, st, []);
    assert [] + Tick(first.c, first.x, st).1 == Tick(first.c, first.x, st).1;
  }

  lemma RunNext(st: State, steps: seq<Step>, init: seq<Step>, last: Step, a: State, before: seq<Command>,
                b: State, cmds: seq<Command>)
    requires steps == init + [last] && Run(st, init) == (a, before) && Tick(last.c, last.x, a) == (b, cmds)
    requires before == [] || cmds == []
    ensures Run(st, steps) == (b, if before == [] then cmds else before)
  {
    RunLast(st, steps, init, last, a, before);
    assert before + cmds == if before == [] then cmds else before;
  }

  lemma CutClock()
    ensures Clocked(CutSteps(), 1)
  {}

  lemma CutOne(steps: seq<Step>) returns (a: State)
    requires steps == [Step(CUT_CONFIG, CUT_SAMPLE)]
    ensures Run(Start(1), steps) == (a, []) && AwaitsBoot(a) && a.cur == Unknown && a.modeSince == 0
  {
    CutFirst();
    RunFirst(Start(1), steps, Step(CUT_CONFIG, CUT_SAMPLE));
    a := Tick(CUT_CONFIG, CUT_SAMPLE, Start(1)).0;
  }

  lemma CutTwo(steps: seq<Step>, init: seq<Step>) returns (b: State)
    requires init == [Step(CUT_CONFIG, CUT_SAMPLE)]
    requires steps == init + [Step(CUT_CONFIG, CUT_SAMPLE.(now := 120000, calendar := Day))]
    ensures Run(Start(1), steps) == (b, [Drive(Day, Commit, 120000)])
    ensures b.cur == Day && b.modeSince == 120000 && !b.booted && b.wasEnabled && b.bootAt == 1
    ensures b.enforceAt == 0 && b.irVerdictAt == 0 && b.lastProbe == 0 && b.verifyAt == 138000
  {
    var a := CutOne(init);
    CutSecond(a);
    var x := CUT_SAMPLE.(now := 120000, calendar := Day);
    b := Tick(CUT_CONFIG, x, a).0;
    RunNext(Start(1), steps, init, Step(CUT_CONFIG, x), a, [], b, [Drive(Day, Commit, 120000)]);
  }

  /** The three iterations as one run from start-up: the clock is in order, a measurement
      is cut off, the automaton decides night and the board was last driven to day. */
  lemma CutRun()
    ensures Clocked(CutSteps(), 1) && SomeBootCut(Start(1), CutSteps())
    ensures Run(Start(1), CutSteps()).0.cur == Night
    ensures Run(Start(1), CutSteps()).1 == [Drive(Day, Commit, 120000)]
    ensures !BoardAgreesThroughout(Start(1), BLANK, CutSteps())
  {
    CutClock();
    var s := CutSteps();
    CutEnd(s, s[..2], s[..1], s[2]);
    BoardFollowsDecision(s, 1);
  }

  lemma CutEnd(s: seq<Step>, two: seq<Step>, one: seq<Step>, last: Step)
    requires one == [Step(CUT_CONFIG, CUT_SAMPLE)]
    requires two == one + [Step(CUT_CONFIG, CUT_SAMPLE.(now := 120000, calendar := Day))]
    requires s == two + [last] && last == Step(CUT_CONFIG.(schedule := false), CUT_SAMPLE.(now := 121000))
    ensures SomeBootCut(Start(1), s) && Run(Start(1), s).0.cur == Night && Run(Start(1), s).1 == [Drive(Day, Commit, 120000)]
  {
    var b := CutTwo(two, one);
    CutThird(b);
    RunLast(Start(1), s, two, last, b, [Drive(Day, Commit, 120000)]);
    RunNext(Start(1), s, two, last, b, [Drive(Day, Commit, 120000)], Tick(last.c, last.x, b).0, []);
  }
}
