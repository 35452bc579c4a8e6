/** The packet fan-out of src/hub.c, src/fanqueue.c and src/frame.c as a step system: one
    step per critical section or atomic count, any number of subscribers, one producer per
    source, every interleaving.
  */
module Fanout {
  import FQ = FanQueue

  // ------------------------------------------------------------------
  // State

  /** Live: someone holds a reference. Dying: the count reached zero and the thread that
      saw it has not yet disposed of the packet. Idle: kept by its pool. Gone: freed. */
  datatype Life = Live | Dying | Idle | Gone

  /** `home` is the source whose pool the packet belongs to, if any. */
  datatype Pkt = Pkt(ref: int, life: Life, cap: nat, home: Maybe, tag: FQ.Packet)

  datatype Maybe = None | Some(n: nat)

  /** A queue and its slot count. */
  datatype Buffer = Buffer(q: FQ.Queue, cap: nat)

  /** A queue's owner: whether the queue exists, the sources it has subscribed to without an
      unsubscribe having returned, and those of them it is waiting to leave. */
  datatype Client = Client(alive: bool, attached: set<nat>, leaving: set<nat>)

  datatype Hub = Hub(subs: seq<nat>, pushing: bool)

  /** What a source's producer is doing. */
  datatype Work =
    | Rest
    | Built(p: nat)
    | Snapped(snap: seq<nat>)
    | Fanning(p: nat, snap: seq<nat>, i: nat, reffed: bool)
    | Finishing

  datatype Pool = Pool(free: seq<nat>, big: Maybe)

  datatype State = State(pkts: seq<Pkt>, bufs: seq<Buffer>, hands: multiset<nat>,
                         clients: seq<Client>, hubs: seq<Hub>, work: seq<Work>,
                         pools: seq<Pool>, fault: bool)

  const MAX_SUBS: nat := 16
  const MAX_FREE: nat := 4
  const KEEP_CAP: nat := 96 * 1024

  function Start(n: nat): State {
    State([], [], multiset{}, [], seq(n, _ => Hub([], false)), seq(n, _ => Rest), seq(n, _ => Pool([], None)), false)
  }

  // ------------------------------------------------------------------
  // Reference counts and pools

  function Ref(pkts: seq<Pkt>, p: nat): seq<Pkt>
    requires p < |pkts|
  {
    pkts[p := pkts[p].(ref := pkts[p].ref + 1)]
  }

  function Unref(pkts: seq<Pkt>, p: nat): seq<Pkt>
    requires p < |pkts|
  {
    pkts[p := pkts[p].(ref := pkts[p].ref - 1, life := if pkts[p].ref == 1 then Dying else pkts[p].life)]
  }

  predicate IsLive(pkts: seq<Pkt>, p: nat) {
    p < |pkts| && pkts[p].life == Live
  }

  /** Each reference given up, one after the other, is one to a live packet. */
  predicate CanUnref(pkts: seq<Pkt>, gone: seq<FQ.Packet>)
    decreases |gone|
  {
    gone == []
    || (IsLive(pkts, gone[0].id) && CanUnref(Unref(pkts, gone[0].id), gone[1..]))
  }

  function UnrefAll(pkts: seq<Pkt>, gone: seq<FQ.Packet>): seq<Pkt>
    requires CanUnref(pkts, gone)
    decreases |gone|
  {
    if gone == [] then pkts else UnrefAll(Unref(pkts, gone[0].id), gone[1..])
  }

  function Wanted(cap: nat): nat {
    if cap == 0 then 1 else cap
  }

  /** The idle packet a request takes: large requests take only the large slot, the others
      only the freelist. */
  function Picked(pool: Pool, want: nat): Maybe {
    if want > KEEP_CAP then pool.big else if pool.free != [] then Some(pool.free[0]) else None
  }

  function Depleted(pool: Pool, want: nat): Pool {
    if want > KEEP_CAP then pool.(big := None)
    else if pool.free != [] then pool.(free := pool.free[1..]) else pool
  }

  function NewPkt(p: nat, cap: nat, home: Maybe): Pkt {
    Pkt(1, Live, cap, home, FQ.Packet(p, 0, FQ.Video, false))
  }

  /** hub_pkt_get: `oom` says that the allocation this request needs, if any, fails. */
  function Get(st: State, s: nat, cap: nat, oom: bool): State
    requires s < |st.pools| && s < |st.work|
    requires Picked(st.pools[s], Wanted(cap)).Some? ==> Picked(st.pools[s], Wanted(cap)).n < |st.pkts|
  {
    var want := Wanted(cap);
    match Picked(st.pools[s], want)
    case Some(p) =>
      var short := want > st.pkts[p].cap;
      var kept := if short then want else st.pkts[p].cap;
      st.(pools := st.pools[s := Depleted(st.pools[s], want)],
          pkts := st.pkts[p := if short && oom then st.pkts[p].(life := Gone) else NewPkt(p, kept, Some(s))],
          work := if short && oom then st.work else st.work[s := Built(p)])
    case None =>
      st.(pkts := if oom then st.pkts else st.pkts + [NewPkt(|st.pkts|, want, Some(s))],
          work := if oom then st.work else st.work[s := Built(|st.pkts|)])
  }

  /** What becomes of a packet whose count reached zero. */
  function Kept(pool: Pool, cap: nat): bool {
    if cap > KEEP_CAP then pool.big.None? else |pool.free| < MAX_FREE
  }

  function Stocked(pool: Pool, p: nat, cap: nat): Pool {
    if cap > KEEP_CAP then pool.(big := Some(p)) else pool.(free := [p] + pool.free)
  }

  function Recycle(st: State, p: nat): State
    requires p < |st.pkts| && (st.pkts[p].home.Some? ==> st.pkts[p].home.n < |st.pools|)
  {
    var k := st.pkts[p];
    var keep := k.home.Some? && Kept(st.pools[k.home.n], k.cap);
    st.(pkts := st.pkts[p := k.(life := if keep then Idle else Gone)],
        pools := if keep then st.pools[k.home.n := Stocked(st.pools[k.home.n], p, k.cap)] else st.pools)
  }

  function Trim(st: State, s: nat): State
    requires s < |st.pools| && (st.pools[s].big.Some? ==> st.pools[s].big.n < |st.pkts|)
  {
    match st.pools[s].big
    case None => st
    case Some(p) =>
      st.(pools := st.pools[s := st.pools[s].(big := None)], pkts := st.pkts[p := st.pkts[p].(life := Gone)])
  }

  // ------------------------------------------------------------------
  // Subscribers

  function Open(st: State, cap: nat): State {
    st.(clients := st.clients + [Client(true, {}, {})], bufs := st.bufs + [Buffer(FQ.EMPTY, cap)])
  }

  function Subscribe(st: State, q: nat, s: nat): State
    requires q < |st.clients| && s < |st.hubs|
  {
    var room := |st.hubs[s].subs| < MAX_SUBS;
    st.(hubs := if room then st.hubs[s := st.hubs[s].(subs := st.hubs[s].subs + [q])] else st.hubs,
        clients := if room then st.clients[q := st.clients[q].(attached := st.clients[q].attached + {s})] else st.clients)
  }

  /** The list without q: the last entry takes its place. */
  function Without(subs: seq<nat>, q: nat): seq<nat>
    decreases |subs|
  {
    if subs == [] then []
    else if subs[0] == q then
      (if |subs| == 1 then [] else [subs[|subs| - 1]] + subs[1..|subs| - 1])
    else [subs[0]] + Without(subs[1..], q)
  }

  /** The first critical section of hub_unsubscribe. */
  function Leave(st: State, q: nat, s: nat): State
    requires q < |st.clients| && s < |st.hubs|
  {
    st.(hubs := st.hubs[s := st.hubs[s].(subs := Without(st.hubs[s].subs, q))],
        clients := st.clients[q := st.clients[q].(leaving := st.clients[q].leaving + {s})])
  }

  /** hub_unsubscribe returns: it has seen, under the source's lock, no push in flight. */
  function Return(st: State, q: nat, s: nat): State
    requires q < |st.clients|
  {
    st.(clients := st.clients[q := Client(st.clients[q].alive, st.clients[q].attached - {s}, st.clients[q].leaving - {s})])
  }

  function Close(st: State, q: nat): State
    requires q < |st.bufs|
  {
    st.(bufs := st.bufs[q := st.bufs[q].(q := st.bufs[q].q.(closed := true))])
  }

  function Free(st: State, q: nat): State
    requires q < |st.clients| && q < |st.bufs| && CanUnref(st.pkts, st.bufs[q].q.held)
  {
    st.(clients := st.clients[q := st.clients[q].(alive := false)],
        pkts := UnrefAll(st.pkts, st.bufs[q].q.held),
        bufs := st.bufs[q := st.bufs[q].(q := st.bufs[q].q.(held := []))])
  }

  /** A pop, with a status or without; the consumer now owns the queue's reference. */
  function Pop(st: State, q: nat, status: bool): State
    requires q < |st.bufs| && st.bufs[q].q.held != []
  {
    var b := st.bufs[q];
    st.(hands := st.hands + multiset{b.q.held[0].id},
        bufs := st.bufs[q := b.(q := if status then FQ.PopFrom(b.q) else b.q.(held := b.q.held[1..]))])
  }

  function Share(st: State, p: nat): State
    requires p < |st.pkts|
  {
    st.(pkts := Ref(st.pkts, p), hands := st.hands + multiset{p})
  }

  function Drop(st: State, p: nat): State
    requires p < |st.pkts|
  {
    st.(pkts := Unref(st.pkts, p), hands := st.hands - multiset{p})
  }

  // ------------------------------------------------------------------
  // Producers

  /** The producer writes its packet's payload. */
  function Fill(st: State, p: nat, len: nat): State
    requires p < |st.pkts|
  {
    st.(pkts := st.pkts[p := st.pkts[p].(tag := st.pkts[p].tag.(len := len))])
  }

  /** hub_publish_take up to the end of hub_prepare_locked. */
  function Publish(st: State, s: nat, p: nat, media: FQ.Media, key: bool): State
    requires s < |st.hubs| && s < |st.work| && p < |st.pkts|
  {
    st.(pkts := st.pkts[p := st.pkts[p].(tag := st.pkts[p].tag.(media := media, key := key))],
        work := st.work[s := Fanning(p, st.hubs[s].subs, 0, false)],
        hubs := st.hubs[s := st.hubs[s].(pushing := st.hubs[s].pushing || st.hubs[s].subs != [])])
  }

  /** hub_publish up to the end of hub_prepare_locked: no packet yet. */
  function Announce(st: State, s: nat): State
    requires s < |st.hubs| && s < |st.work|
  {
    var some := st.hubs[s].subs != [];
    st.(work := if some then st.work[s := Snapped(st.hubs[s].subs)] else st.work,
        hubs := if some then st.hubs[s := st.hubs[s].(pushing := true)] else st.hubs)
  }

  /** pkt_new for the announced packet; it may fail. */
  function Make(st: State, s: nat, len: nat, media: FQ.Media, key: bool, oom: bool): State
    requires s < |st.work| && st.work[s].Snapped?
  {
    var p := |st.pkts|;
    st.(pkts := if oom then st.pkts else st.pkts + [Pkt(1, Live, Wanted(len), None, FQ.Packet(p, len, media, key))],
        work := st.work[s := if oom then Finishing else Fanning(p, st.work[s].snap, 0, false)])
  }

  function TakeRef(st: State, s: nat): State
    requires s < |st.work| && st.work[s].Fanning? && st.work[s].p < |st.pkts|
  {
    st.(pkts := Ref(st.pkts, st.work[s].p), work := st.work[s := st.work[s].(reffed := true)])
  }

  /** The references a push gives up: what it removes, or its own on a closed queue. */
  function Surrendered(b: Buffer, tag: FQ.Packet): seq<FQ.Packet> {
    if b.q.closed then [tag] else b.q.held[..FQ.Removed(b.cap, b.q, tag.len)]
  }

  function Push(st: State, s: nat): State
    requires s < |st.work| && st.work[s].Fanning? && st.work[s].i < |st.work[s].snap|
    requires st.work[s].p < |st.pkts| && st.work[s].snap[st.work[s].i] < |st.bufs|
    requires CanUnref(st.pkts, Surrendered(st.bufs[st.work[s].snap[st.work[s].i]], st.pkts[st.work[s].p].tag))
  {
    var w := st.work[s];
    var q := w.snap[w.i];
    var b, tag := st.bufs[q], st.pkts[w.p].tag;
    st.(pkts := UnrefAll(st.pkts, Surrendered(b, tag)),
        bufs := st.bufs[q := b.(q := FQ.PushTo(b.cap, b.q, tag))],
        work := st.work[s := Fanning(w.p, w.snap, w.i + 1, false)])
  }

  /** The producer gives up its own reference after the fan-out. */
  function Release(st: State, s: nat): State
    requires s < |st.work| && st.work[s].Fanning? && st.work[s].p < |st.pkts|
  {
    st.(pkts := Unref(st.pkts, st.work[s].p),
        work := st.work[s := if st.work[s].snap == [] then Rest else Finishing])
  }

  /** The producer gives up a packet it never published. */
  function Discard(st: State, s: nat): State
    requires s < |st.work| && st.work[s].Built? && st.work[s].p < |st.pkts|
  {
    st.(pkts := Unref(st.pkts, st.work[s].p), work := st.work[s := Rest])
  }

  function Finish(st: State, s: nat): State
    requires s < |st.work| && s < |st.hubs|
  {
    st.(work := st.work[s := Rest], hubs := st.hubs[s := st.hubs[s].(pushing := false)])
  }

  // ------------------------------------------------------------------
  // Steps

  datatype Action =
    | DoOpen(cap: nat)
    | DoSubscribe(q: nat, s: nat)
    | DoLeave(q: nat, s: nat)
    | DoReturn(q: nat, s: nat)
    | DoClose(q: nat)
    | DoFree(q: nat)
    | DoPop(q: nat, status: bool)
    | DoShare(p: nat)
    | DoDrop(p: nat)
    | DoGet(s: nat, cap: nat, oom: bool)
    | DoFill(s: nat, len: nat)
    | DoPublish(s: nat, media: FQ.Media, key: bool)
    | DoDiscard(s: nat)
    | DoAnnounce(s: nat)
    | DoMake(s: nat, len: nat, media: FQ.Media, key: bool, oom: bool)
    | DoTakeRef(s: nat)
    | DoPush(s: nat)
    | DoRelease(s: nat)
    | DoFinish(s: nat)
    | DoRecycle(p: nat)
    | DoTrim(s: nat)

  predicate HasClient(st: State, q: nat) {
    q < |st.clients| && q < |st.bufs| && st.clients[q].alive
  }

  predicate HasSource(st: State, s: nat) {
    s < |st.hubs| && s < |st.work| && s < |st.pools|
  }

  /** Where each thread's program lets the step happen. Nothing here looks at what another
      thread may have freed, except that an owner uses its queue only until it frees it and
      frees it only after leaving every source. */
  predicate Enabled(st: State, a: Action) {
    match a
    case DoOpen(cap) => 0 < cap
    case DoSubscribe(q, s) => HasClient(st, q) && HasSource(st, s) && s !in st.clients[q].attached
    case DoLeave(q, s) =>
      HasClient(st, q) && HasSource(st, s) && s in st.clients[q].attached && s !in st.clients[q].leaving
    case DoReturn(q, s) => HasClient(st, q) && HasSource(st, s) && s in st.clients[q].leaving && !st.hubs[s].pushing
    case DoClose(q) => HasClient(st, q)
    case DoFree(q) => HasClient(st, q) && st.clients[q].attached == {}
    case DoPop(q, _) => HasClient(st, q) && st.bufs[q].q.held != []
    case DoShare(p) => st.hands[p] > 0
    case DoDrop(p) => st.hands[p] > 0
    case DoGet(s, _, _) => HasSource(st, s) && st.work[s].Rest?
    case DoFill(s, len) =>
      HasSource(st, s) && st.work[s].Built? && (st.work[s].p < |st.pkts| ==> len <= st.pkts[st.work[s].p].cap)
    case DoPublish(s, _, _) => HasSource(st, s) && st.work[s].Built?
    case DoDiscard(s) => HasSource(st, s) && st.work[s].Built?
    case DoAnnounce(s) => HasSource(st, s) && st.work[s].Rest?
    case DoMake(s, _, _, _, _) => HasSource(st, s) && st.work[s].Snapped?
    case DoTakeRef(s) =>
      HasSource(st, s) && st.work[s].Fanning? && !st.work[s].reffed && st.work[s].i < |st.work[s].snap|
    case DoPush(s) => HasSource(st, s) && st.work[s].Fanning? && st.work[s].reffed && st.work[s].i < |st.work[s].snap|
    case DoRelease(s) =>
      HasSource(st, s) && st.work[s].Fanning? && !st.work[s].reffed && st.work[s].i == |st.work[s].snap|
    case DoFinish(s) => HasSource(st, s) && st.work[s].Finishing?
    case DoRecycle(p) => p < |st.pkts| && st.pkts[p].life == Dying
    case DoTrim(s) => HasSource(st, s)
  }

  /** The step touches only memory that is still there: live packets, live queues, idle
      pool entries. */
  predicate Safe(st: State, a: Action)
    requires Enabled(st, a)
  {
    match a
    case DoFree(q) => CanUnref(st.pkts, st.bufs[q].q.held)
    case DoPop(q, _) => IsLive(st.pkts, st.bufs[q].q.held[0].id)
    case DoShare(p) => IsLive(st.pkts, p)
    case DoDrop(p) => IsLive(st.pkts, p)
    case DoGet(s, cap, _) =>
      var x := Picked(st.pools[s], Wanted(cap));
      x.Some? ==> x.n < |st.pkts| && st.pkts[x.n].life == Idle
    case DoFill(s, _) => IsLive(st.pkts, st.work[s].p)
    case DoPublish(s, _, _) => IsLive(st.pkts, st.work[s].p)
    case DoDiscard(s) => IsLive(st.pkts, st.work[s].p)
    case DoTakeRef(s) => IsLive(st.pkts, st.work[s].p)
    case DoPush(s) =>
      var w := st.work[s];
      var q := w.snap[w.i];
      && IsLive(st.pkts, w.p) && HasClient(st, q)
      && CanUnref(st.pkts, Surrendered(st.bufs[q], st.pkts[w.p].tag))
    case DoRelease(s) => IsLive(st.pkts, st.work[s].p)
    case DoRecycle(p) => st.pkts[p].home.Some? ==> st.pkts[p].home.n < |st.pools|
    case DoTrim(s) =>
      var x := st.pools[s].big;
      x.Some? ==> x.n < |st.pkts| && st.pkts[x.n].life == Idle
    case _ => true
  }

  function Apply(st: State, a: Action): State
    requires Enabled(st, a) && Safe(st, a)
  {
    match a
    case DoOpen(cap) => Open(st, cap)
    case DoSubscribe(q, s) => Subscribe(st, q, s)
    case DoLeave(q, s) => Leave(st, q, s)
    case DoReturn(q, s) => Return(st, q, s)
    case DoClose(q) => Close(st, q)
    case DoFree(q) => Free(st, q)
    case DoPop(q, status) => Pop(st, q, status)
    case DoShare(p) => Share(st, p)
    case DoDrop(p) => Drop(st, p)
    case DoGet(s, cap, oom) => Get(st, s, cap, oom)
    case DoFill(s, len) => Fill(st, st.work[s].p, len)
    case DoPublish(s, media, key) => Publish(st, s, st.work[s].p, media, key)
    case DoDiscard(s) => Discard(st, s)
    case DoAnnounce(s) => Announce(st, s)
    case DoMake(s, len, media, key, oom) => Make(st, s, len, media, key, oom)
    case DoTakeRef(s) => TakeRef(st, s)
    case DoPush(s) => Push(st, s)
    case DoRelease(s) => Release(st, s)
    case DoFinish(s) => Finish(st, s)
    case DoRecycle(p) => Recycle(st, p)
    case DoTrim(s) => Trim(st, s)
  }

  /** A step that may happen and touches freed memory leaves the system in fault. */
  function Next(st: State, a: Action): State {
    if !Enabled(st, a) then st
    else if !Safe(st, a) then st.(fault := true)
    else Apply(st, a)
  }

  /** Any interleaving: the steps in the order they happened. */
  function Run(st: State, steps: seq<Action>): State
    decreases |steps|
  {
    if steps == [] then st else Next(Run(st, steps[..|steps| - 1]), steps[|steps| - 1])
  }
}
