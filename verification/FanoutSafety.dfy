/** What holds in every interleaving of producers, subscribers and consumers: nothing ever
    touches freed memory, counts are exact, idle memory is bounded.
  */
module FanoutSafety {
  import FQ = FanQueue
  import opened Fanout
  import opened FanoutHandshake
  import opened FanoutBooks

  // ------------------------------------------------------------------
  // Pools

  predicate IdleAt(pkts: seq<Pkt>, p: nat, s: nat) {
    p < |pkts| && pkts[p].life == Idle && pkts[p].home == Some(s)
  }

  /** The pool holds exactly the source's idle packets: at most MAX_FREE small ones and one
      large one. */
  predicate Stocks(pkts: seq<Pkt>, pool: Pool, s: nat) {
    && |pool.free| <= MAX_FREE && NoDup(pool.free)
    && (forall p :: p in pool.free ==> IdleAt(pkts, p, s) && pkts[p].cap <= KEEP_CAP)
    && (pool.big.Some? ==> IdleAt(pkts, pool.big.n, s) && pkts[pool.big.n].cap > KEEP_CAP)
    && (forall p :: 0 <= p < |pkts| && IdleAt(pkts, p, s) ==> p in pool.free || pool.big == Some(p))
  }

  predicate Homed(k: Pkt, pools: seq<Pool>) {
    (k.home.Some? ==> k.home.n < |pools|) && (k.life == Idle ==> k.home.Some?)
  }

  predicate Pooled(pkts: seq<Pkt>, pools: seq<Pool>) {
    && (forall s :: 0 <= s < |pools| ==> Stocks(pkts, pools[s], s))
    && (forall p :: 0 <= p < |pkts| ==> Homed(pkts[p], pools))
  }

  /** As far as the pools are concerned the packet has not changed. */
  predicate SameStock(a: Pkt, b: Pkt) {
    (a.life == Idle <==> b.life == Idle) && a.cap == b.cap && a.home == b.home
  }

  lemma PoolsUntouched(pkts: seq<Pkt>, pkts': seq<Pkt>, pools: seq<Pool>)
    requires Pooled(pkts, pools) && |pkts| <= |pkts'|
    requires forall p :: 0 <= p < |pkts| ==> SameStock(pkts[p], pkts'[p])
    requires forall p :: |pkts| <= p < |pkts'| ==> pkts'[p].life != Idle && Homed(pkts'[p], pools)
    ensures Pooled(pkts', pools)
  {
    forall s | 0 <= s < |pools| ensures Stocks(pkts', pools[s], s) {
      StocksUntouched(pkts, pkts', pools[s], s);
    }
    forall p | 0 <= p < |pkts'| ensures Homed(pkts'[p], pools) {
      if p < |pkts| { assert Homed(pkts[p], pools); }
    }
  }

  lemma StocksUntouched(pkts: seq<Pkt>, pkts': seq<Pkt>, pool: Pool, s: nat)
    requires Stocks(pkts, pool, s) && |pkts| <= |pkts'|
    requires forall p :: 0 <= p < |pkts| ==> SameStock(pkts[p], pkts'[p]) || (!IdleAt(pkts, p, s) && !IdleAt(pkts', p, s))
    requires forall p :: |pkts| <= p < |pkts'| ==> pkts'[p].life != Idle
    ensures Stocks(pkts', pool, s)
  {
    forall p | 0 <= p < |pkts'| && IdleAt(pkts', p, s) ensures p in pool.free || pool.big == Some(p) {
      assert IdleAt(pkts, p, s);
    }
    forall p | p in pool.free ensures IdleAt(pkts', p, s) && pkts'[p].cap <= KEEP_CAP {
      assert IdleAt(pkts, p, s);
    }
  }

  lemma GivesBig(pkts: seq<Pkt>, pool: Pool, s: nat, p: nat, k: Pkt)
    requires Stocks(pkts, pool, s) && pool.big == Some(p) && p < |pkts| && k.life != Idle
    ensures Stocks(pkts[p := k], pool.(big := None), s)
  {
    var pkts' := pkts[p := k];
    assert p !in pool.free;
    forall x | 0 <= x < |pkts'| && IdleAt(pkts', x, s) ensures x in pool.free {
      assert x != p && IdleAt(pkts, x, s);
    }
  }

  lemma GivesSmall(pkts: seq<Pkt>, pool: Pool, s: nat, p: nat, k: Pkt)
    requires Stocks(pkts, pool, s) && pool.free != [] && pool.free[0] == p && p < |pkts| && k.life != Idle
    ensures Stocks(pkts[p := k], pool.(free := pool.free[1..]), s)
  {
    var pkts', rest := pkts[p := k], pool.free[1..];
    assert pool.free == [p] + rest && p !in rest;
    assert forall x :: x in pool.free <==> x == p || x in rest;
    forall x | 0 <= x < |pkts'| && IdleAt(pkts', x, s) ensures x in rest || pool.big == Some(x) {
      assert x != p && IdleAt(pkts, x, s);
    }
    forall x | x in rest ensures IdleAt(pkts', x, s) && pkts'[x].cap <= KEEP_CAP {
      assert x in pool.free && IdleAt(pkts, x, s);
    }
  }

  /** A packet leaves its pool. */
  lemma PoolGives(pkts: seq<Pkt>, pools: seq<Pool>, s: nat, pool: Pool, p: nat, k: Pkt)
    requires Pooled(pkts, pools) && s < |pools| && p < |pkts| && IdleAt(pkts, p, s)
    requires Stocks(pkts[p := k], pool, s) && k.life != Idle && Homed(k, pools)
    ensures Pooled(pkts[p := k], pools[s := pool])
  {
    var pkts' := pkts[p := k];
    forall u | 0 <= u < |pools| && u != s ensures Stocks(pkts', pools[u], u) {
      StocksUntouched(pkts, pkts', pools[u], u);
    }
    forall x | 0 <= x < |pkts'| ensures Homed(pkts'[x], pools) {
      if x != p { assert Homed(pkts[x], pools); }
    }
  }

  /** A packet enters its pool. */
  lemma PoolTakes(pkts: seq<Pkt>, pools: seq<Pool>, p: nat)
    requires Pooled(pkts, pools) && p < |pkts| && pkts[p].life != Idle
    requires pkts[p].home.Some? && pkts[p].home.n < |pools| && Kept(pools[pkts[p].home.n], pkts[p].cap)
    ensures var s := pkts[p].home.n;
            Pooled(pkts[p := pkts[p].(life := Idle)], pools[s := Stocked(pools[s], p, pkts[p].cap)])
  {
    var s := pkts[p].home.n;
    var pkts', was := pkts[p := pkts[p].(life := Idle)], pools[s];
    var pool := Stocked(was, p, pkts[p].cap);
    assert Stocks(pkts, was, s) && !IdleAt(pkts, p, s) && p !in was.free;
    forall u | 0 <= u < |pools| && u != s ensures Stocks(pkts', pools[u], u) {
      StocksUntouched(pkts, pkts', pools[u], u);
    }
    forall x | 0 <= x < |pkts'| && IdleAt(pkts', x, s) ensures x in pool.free || pool.big == Some(x) {
      assert x != p ==> IdleAt(pkts, x, s);
    }
    forall x | x in pool.free ensures IdleAt(pkts', x, s) && pkts'[x].cap <= KEEP_CAP {
      assert x != p ==> x in was.free && IdleAt(pkts, x, s);
    }
    assert Stocks(pkts', pool, s);
    forall x | 0 <= x < |pkts'| ensures Homed(pkts'[x], pools) { assert Homed(pkts[x], pools); }
  }

  /** What a request finds in the pool is idle there. */
  lemma PickedIsIdle(pkts: seq<Pkt>, pools: seq<Pool>, s: nat, want: nat)
    requires Pooled(pkts, pools) && s < |pools| && Picked(pools[s], want).Some?
    ensures var p := Picked(pools[s], want).n;
            IdleAt(pkts, p, s) && (pkts[p].cap > KEEP_CAP <==> want > KEEP_CAP)
  {
    assert Stocks(pkts, pools[s], s);
    if want <= KEEP_CAP { assert pools[s].free[0] in pools[s].free; }
  }

  predicate AllSmall(pkts: seq<Pkt>, free: seq<nat>) {
    forall i :: 0 <= i < |free| ==> free[i] < |pkts| && pkts[free[i]].cap <= KEEP_CAP
  }

  function Caps(pkts: seq<Pkt>, free: seq<nat>): nat
    requires AllSmall(pkts, free)
  {
    if free == [] then 0 else pkts[free[0]].cap + Caps(pkts, free[1..])
  }

  lemma {:induction false} CapsBound(pkts: seq<Pkt>, free: seq<nat>)
    requires AllSmall(pkts, free)
    ensures Caps(pkts, free) <= |free| * KEEP_CAP
  {
    if free != [] { CapsBound(pkts, free[1..]); }
  }

  // ------------------------------------------------------------------
  // The invariant

  ghost predicate Inv(st: State) {
    && |st.bufs| == |st.clients| && |st.hubs| == |st.work| == |st.pools|
    && Handshake(st.clients, st.hubs, st.work)
    && Booked(st) && Pooled(st.pkts, st.pools)
    && !st.fault
  }

  /** In a state that satisfies the invariant no step that may happen touches freed memory,
      and the step keeps the reference counts. */
  lemma BooksStep(st: State, a: Action)
    requires Inv(st) && Enabled(st, a)
    ensures Safe(st, a) && Booked(Apply(st, a))
  {
    match a
    case DoOpen(cap) => OpenBooks(st, cap);
    case DoClose(q) => CloseBooks(st, q);
    case DoFree(q) => FreeBooks(st, q);
    case DoPop(q, status) => PopBooks(st, q, status);
    case DoShare(p) => assert p in st.hands; HandBooks(st, p, Share(st, p));
    case DoDrop(p) => assert p in st.hands; HandBooks(st, p, Drop(st, p));
    case DoRecycle(p) => assert Homed(st.pkts[p], st.pools); LifeBooks(st, p, Recycle(st, p).pkts[p].life, Recycle(st, p));
    case DoTrim(s) =>
      assert Stocks(st.pkts, st.pools[s], s);
      if st.pools[s].big.Some? { LifeBooks(st, st.pools[s].big.n, Gone, Trim(st, s)); }
    case DoSubscribe(q, s) =>
    case DoLeave(q, s) =>
    case DoReturn(q, s) =>
    case _ => ProducerBooks(st, a);
  }

  lemma ProducerBooks(st: State, a: Action)
    requires Inv(st) && Enabled(st, a) && (Producing(a) || a.DoFill?)
    ensures Safe(st, a) && Booked(Apply(st, a))
  {
    assert Holding(st.pkts, st.work[a.s]);
    match a
    case DoGet(s, cap, oom) =>
      if Picked(st.pools[s], Wanted(cap)).Some? { PickedIsIdle(st.pkts, st.pools, s, Wanted(cap)); }
      GetBooks(st, s, cap, oom);
    case DoFill(s, len) =>
      assert Sound(st.pkts[st.work[s].p], st.work[s].p);
      WriteBooks(st, s, st.work[s].p, Fill(st, st.work[s].p, len));
    case DoPublish(s, media, key) =>
      assert Sound(st.pkts[st.work[s].p], st.work[s].p);
      WriteBooks(st, s, st.work[s].p, Publish(st, s, st.work[s].p, media, key));
    case DoDiscard(s) => HandleBooks(st, s, st.work[s].p, Discard(st, s));
    case DoAnnounce(s) => if st.hubs[s].subs != [] { IdleBooks(st, s, Announce(st, s)); }
    case DoMake(s, len, media, key, oom) => MakeBooks(st, s, len, media, key, oom);
    case DoTakeRef(s) => HandleBooks(st, s, st.work[s].p, TakeRef(st, s));
    case DoPush(s) => PushFindsItsQueue(st, s); PushBooks(st, s);
    case DoRelease(s) => HandleBooks(st, s, st.work[s].p, Release(st, s));
    case DoFinish(s) => IdleBooks(st, s, Finish(st, s));
  }

  /** One packet changes without entering or leaving a pool. */
  lemma OneChanged(pkts: seq<Pkt>, p: nat, k: Pkt, pools: seq<Pool>)
    requires Pooled(pkts, pools) && p < |pkts| && SameStock(pkts[p], k)
    ensures Pooled(pkts[p := k], pools)
  {
    PoolsUntouched(pkts, pkts[p := k], pools);
  }

  lemma UnrefAllPools(st: State, gone: seq<FQ.Packet>)
    requires Booked(st) && Pooled(st.pkts, st.pools) && CanUnref(st.pkts, gone)
    ensures Pooled(UnrefAll(st.pkts, gone), st.pools)
  {
    UnrefAllStock(st.pkts, gone, st.pools);
  }

  lemma {:induction false} UnrefAllStock(pkts: seq<Pkt>, gone: seq<FQ.Packet>, pools: seq<Pool>)
    requires Pooled(pkts, pools) && CanUnref(pkts, gone)
    ensures Pooled(UnrefAll(pkts, gone), pools)
    decreases |gone|
  {
    if gone != [] {
      OneChanged(pkts, gone[0].id, Unref(pkts, gone[0].id)[gone[0].id], pools);
      UnrefAllStock(Unref(pkts, gone[0].id), gone[1..], pools);
    }
  }

  lemma GetPools(st: State, s: nat, cap: nat, oom: bool)
    requires Pooled(st.pkts, st.pools) && Enabled(st, DoGet(s, cap, oom)) && Safe(st, DoGet(s, cap, oom))
    ensures Pooled(Get(st, s, cap, oom).pkts, Get(st, s, cap, oom).pools)
  {
    var t, want := Get(st, s, cap, oom), Wanted(cap);
    match Picked(st.pools[s], want)
    case None =>
      assert st.pools[s := st.pools[s]] == st.pools;
      PoolsUntouched(st.pkts, t.pkts, st.pools);
    case Some(p) =>
      PickedIsIdle(st.pkts, st.pools, s, want);
      if want > KEEP_CAP {
        GivesBig(st.pkts, st.pools[s], s, p, t.pkts[p]);
      } else {
        GivesSmall(st.pkts, st.pools[s], s, p, t.pkts[p]);
      }
      PoolGives(st.pkts, st.pools, s, Depleted(st.pools[s], want), p, t.pkts[p]);
  }

  lemma RecyclePools(st: State, p: nat)
    requires Pooled(st.pkts, st.pools) && p < |st.pkts| && st.pkts[p].life == Dying && Homed(st.pkts[p], st.pools)
    ensures Pooled(Recycle(st, p).pkts, Recycle(st, p).pools)
  {
    if st.pkts[p].home.Some? && Kept(st.pools[st.pkts[p].home.n], st.pkts[p].cap) {
      PoolTakes(st.pkts, st.pools, p);
    } else {
      OneChanged(st.pkts, p, st.pkts[p].(life := Gone), st.pools);
    }
  }

  lemma PoolsStep(st: State, a: Action)
    requires Inv(st) && Enabled(st, a) && Safe(st, a)
    ensures Pooled(Apply(st, a).pkts, Apply(st, a).pools)
  {
    match a
    case DoFree(q) => UnrefAllPools(st, st.bufs[q].q.held);
    case DoShare(p) => OneChanged(st.pkts, p, Ref(st.pkts, p)[p], st.pools);
    case DoDrop(p) => OneChanged(st.pkts, p, Unref(st.pkts, p)[p], st.pools);
    case DoGet(s, cap, oom) => GetPools(st, s, cap, oom);
    case DoFill(s, len) => OneChanged(st.pkts, st.work[s].p, Apply(st, a).pkts[st.work[s].p], st.pools);
    case DoPublish(s, _, _) => OneChanged(st.pkts, st.work[s].p, Apply(st, a).pkts[st.work[s].p], st.pools);
    case DoDiscard(s) => OneChanged(st.pkts, st.work[s].p, Apply(st, a).pkts[st.work[s].p], st.pools);
    case DoMake(s, _, _, _, _) => PoolsUntouched(st.pkts, Apply(st, a).pkts, st.pools);
    case DoTakeRef(s) => OneChanged(st.pkts, st.work[s].p, Apply(st, a).pkts[st.work[s].p], st.pools);
    case DoPush(s) =>
      UnrefAllPools(st, Surrendered(st.bufs[st.work[s].snap[st.work[s].i]], st.pkts[st.work[s].p].tag));
    case DoRelease(s) => OneChanged(st.pkts, st.work[s].p, Apply(st, a).pkts[st.work[s].p], st.pools);
    case DoRecycle(p) => assert Homed(st.pkts[p], st.pools); RecyclePools(st, p);
    case DoTrim(s) =>
      if st.pools[s].big.Some? {
        var p := st.pools[s].big.n;
        assert Homed(st.pkts[p], st.pools);
        GivesBig(st.pkts, st.pools[s], s, p, st.pkts[p].(life := Gone));
        PoolGives(st.pkts, st.pools, s, st.pools[s].(big := None), p, st.pkts[p].(life := Gone));
      }
    case _ =>
  }

  /** The step keeps the invariant. */
  lemma StepKeeps(st: State, a: Action)
    requires Inv(st)
    ensures Inv(Next(st, a))
  {
    if Enabled(st, a) {
      BooksStep(st, a);
      ApplyKeeps(st, a);
      PoolsStep(st, a);
      ApplyShape(st, a);
    }
  }

  lemma ApplyShape(st: State, a: Action)
    requires Enabled(st, a) && Safe(st, a)
    ensures var t := Apply(st, a);
            && |t.bufs| - |st.bufs| == |t.clients| - |st.clients| && |t.hubs| == |st.hubs|
            && |t.work| == |st.work| && |t.pools| == |st.pools| && t.fault == st.fault
  {}

  lemma StartInv(n: nat)
    ensures Inv(Start(n))
  {
    var st := Start(n);
    forall s | 0 <= s < n ensures Guarded(st.clients, st.hubs[s], st.work[s], s) {}
  }

  /** Every interleaving, of any length, with any number of sources and subscribers. */
  lemma {:induction false} RunKeeps(n: nat, steps: seq<Action>)
    ensures Inv(Run(Start(n), steps))
    decreases |steps|
  {
    if steps == [] {
      StartInv(n);
    } else {
      RunKeeps(n, steps[..|steps| - 1]);
      StepKeeps(Run(Start(n), steps[..|steps| - 1]), steps[|steps| - 1]);
    }
  }

  // ------------------------------------------------------------------
  // What it means

  /** No step of any interleaving ever pushes to a freed queue, takes or gives up a
      reference to a freed packet, or takes a pool entry that is in use. */
  lemma NothingFreedIsTouched(n: nat, steps: seq<Action>, a: Action)
    ensures !Run(Start(n), steps).fault
    ensures Enabled(Run(Start(n), steps), a) ==> Safe(Run(Start(n), steps), a)
  {
    RunKeeps(n, steps);
    if Enabled(Run(Start(n), steps), a) { BooksStep(Run(Start(n), steps), a); }
  }

  /** A source pushes only to queues whose owner has not come back from leaving it; its
      list is exactly the queues that subscribed and have not begun to leave. */
  lemma OnlyMembersAreFed(n: nat, steps: seq<Action>, s: nat)
    ensures var st := Run(Start(n), steps);
            && (Enabled(st, DoPush(s)) ==> Member(st.clients, st.work[s].snap[st.work[s].i], s))
            && (s < |st.hubs| ==> Listed(st.clients, st.hubs[s].subs, s))
  {
    var st := Run(Start(n), steps);
    RunKeeps(n, steps);
    if s < |st.hubs| {
      assert Guarded(st.clients, st.hubs[s], st.work[s], s);
      if Enabled(st, DoPush(s)) { assert Snap(st.work[s])[From(st.work[s])] == st.work[s].snap[st.work[s].i]; }
    }
  }

  /** The count is the number of holders, and the packet lives exactly while it has one. */
  lemma CountsAreExact(n: nat, steps: seq<Action>, p: nat)
    requires p < |Run(Start(n), steps).pkts|
    ensures var st := Run(Start(n), steps);
            && st.pkts[p].ref == Tally(st.bufs, Slots(p)) + Tally(st.work, Handles(p)) + st.hands[p]
            && (st.pkts[p].life == Live <==> st.pkts[p].ref > 0)
  {
    var st := Run(Start(n), steps);
    RunKeeps(n, steps);
    assert Counted(st.pkts, st.bufs, st.work, st.hands, p) && Sound(st.pkts[p], p);
  }

  /** No queue ever holds a packet that is idle, dying or freed, and a queued packet is
      still exactly what was pushed, so a queue's byte count stays the sum of its packets. */
  lemma QueuedIsIntact(n: nat, steps: seq<Action>, b: nat, j: nat)
    requires b < |Run(Start(n), steps).bufs| && j < |Run(Start(n), steps).bufs[b].q.held|
    ensures var st := Run(Start(n), steps);
            var e := st.bufs[b].q.held[j];
            IsLive(st.pkts, e.id) && st.pkts[e.id].tag == e
  {
    var st := Run(Start(n), steps);
    RunKeeps(n, steps);
    var held := st.bufs[b].q.held;
    assert Entries(st.pkts, held) && Entry(st.pkts, held[j]);
    OccursAt(held, j);
    TallyAtLeast(st.bufs, b, Slots(held[j].id));
    HeldIsLive(st, held[j].id);
  }

  lemma FreelistBound(pkts: seq<Pkt>, pool: Pool, s: nat)
    requires Stocks(pkts, pool, s)
    ensures AllSmall(pkts, pool.free) && Caps(pkts, pool.free) <= MAX_FREE * KEEP_CAP
  {
    forall i | 0 <= i < |pool.free| ensures pool.free[i] < |pkts| && pkts[pool.free[i]].cap <= KEEP_CAP {
      assert pool.free[i] in pool.free;
    }
    CapsBound(pkts, pool.free);
  }

  /** Idle memory of a source: at most MAX_FREE buffers within KEEP_CAP and one larger; the
      pool holds exactly the source's idle packets. */
  lemma IdleMemoryIsBounded(n: nat, steps: seq<Action>, s: nat)
    requires s < |Run(Start(n), steps).pools|
    ensures var st := Run(Start(n), steps);
            && Stocks(st.pkts, st.pools[s], s)
            && AllSmall(st.pkts, st.pools[s].free) && Caps(st.pkts, st.pools[s].free) <= MAX_FREE * KEEP_CAP
  {
    RunKeeps(n, steps);
    FreelistBound(Run(Start(n), steps).pkts, Run(Start(n), steps).pools[s], s);
  }

  /** A packet dies once for each life and is disposed of once for each death; a freed one
      stays freed. */
  predicate Succeeds(a: Life, b: Life) {
    match a
    case Live => b == Live || b == Dying
    case Dying => b == Dying || b == Idle || b == Gone
    case Idle => b == Idle || b == Live || b == Gone
    case Gone => b == Gone
  }

  lemma {:induction false} UnrefAllSucceeds(pkts: seq<Pkt>, gone: seq<FQ.Packet>, p: nat)
    requires CanUnref(pkts, gone) && p < |pkts|
    ensures |UnrefAll(pkts, gone)| == |pkts|
    ensures UnrefAll(pkts, gone)[p].life == pkts[p].life
            || (pkts[p].life == Live && UnrefAll(pkts, gone)[p].life == Dying)
    decreases |gone|
  {
    if gone != [] {
      UnrefAllSucceeds(Unref(pkts, gone[0].id), gone[1..], p);
    }
  }

  lemma LivesFollow(st: State, a: Action, p: nat)
    requires Inv(st) && p < |st.pkts|
    ensures var t := Next(st, a);
            && p < |t.pkts| && Succeeds(st.pkts[p].life, t.pkts[p].life)
            && (st.pkts[p].life == Dying && t.pkts[p].life != Dying ==> a == DoRecycle(p))
            && (t.pkts[p].life == Dying && st.pkts[p].life != Dying ==> t.pkts[p].ref == 0)
  {
    StepKeeps(st, a);
    assert Sound(st.pkts[p], p);
    if Enabled(st, a) {
      BooksStep(st, a);
      LifeStep(st, a, p);
      assert Sound(Apply(st, a).pkts[p], p);
    }
  }

  lemma LifeStep(st: State, a: Action, p: nat)
    requires Enabled(st, a) && Safe(st, a) && p < |st.pkts|
    ensures |st.pkts| <= |Apply(st, a).pkts| && Succeeds(st.pkts[p].life, Apply(st, a).pkts[p].life)
    ensures st.pkts[p].life == Dying && Apply(st, a).pkts[p].life != Dying ==> a == DoRecycle(p)
  {
    match a
    case DoFree(q) => UnrefAllSucceeds(st.pkts, st.bufs[q].q.held, p);
    case DoPush(s) =>
      UnrefAllSucceeds(st.pkts, Surrendered(st.bufs[st.work[s].snap[st.work[s].i]], st.pkts[st.work[s].p].tag), p);
    case DoGet(s, cap, oom) =>
    case DoRecycle(r) =>
    case _ =>
  }

  /** A request gets a packet of at least its size that nobody else holds, and a request
      within the split gets one within the split. */
  lemma GetFits(st: State, s: nat, cap: nat, oom: bool)
    requires Inv(st) && Enabled(st, DoGet(s, cap, oom))
    requires Safe(st, DoGet(s, cap, oom)) && Get(st, s, cap, oom).work[s].Built?
    ensures var t := Get(st, s, cap, oom);
            var p := t.work[s].p;
            && p < |t.pkts| && t.pkts[p].ref == 1 && t.pkts[p].home == Some(s)
            && Wanted(cap) <= t.pkts[p].cap
            && (Wanted(cap) <= KEEP_CAP <==> t.pkts[p].cap <= KEEP_CAP)
            && (p < |st.pkts| ==> IdleAt(st.pkts, p, s))
  {
    if Picked(st.pools[s], Wanted(cap)).Some? { PickedIsIdle(st.pkts, st.pools, s, Wanted(cap)); }
  }
}
