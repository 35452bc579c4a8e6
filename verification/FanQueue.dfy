/** The bounded single-consumer packet queue of src/fanqueue.c: a ring over a slot array
    that drops its oldest packets, by slot count and by bytes, and reports to its consumer
    what was lost. Waiting and waking are left out; every operation here is one critical
    section.
  */
module FanQueue {

  datatype Media = Video | Audio | Jpeg

  /** What the queue reads of a packet. */
  datatype Packet = Packet(id: nat, len: nat, media: Media, key: bool)
  {
    predicate VideoKey() { media == Video && key }
    predicate Dependent() { media == Video && !key }
  }

  const MAX_BYTES: nat := 2 * 1024 * 1024

  function Bytes(q: seq<Packet>): nat {
    if q == [] then 0 else q[0].len + Bytes(q[1..])
  }

  predicate AnyKey(q: seq<Packet>) {
    q != [] && (q[|q| - 1].VideoKey() || AnyKey(q[..|q| - 1]))
  }

  predicate AnyAudio(q: seq<Packet>) {
    q != [] && (q[|q| - 1].media == Audio || AnyAudio(q[..|q| - 1]))
  }

  lemma {:induction false} AnyMeansSome(q: seq<Packet>)
    ensures AnyKey(q) <==> exists p :: p in q && p.VideoKey()
    ensures AnyAudio(q) <==> exists p :: p in q && p.media == Audio
    decreases |q|
  {
    if q != [] {
      var init, last := q[..|q| - 1], q[|q| - 1];
      AnyMeansSome(init);
      assert q == init + [last];
    }
  }

  /** What the queue holds and the flags its consumer reads. */
  datatype Queue = Queue(held: seq<Packet>, closed: bool, droppedKey: bool, droppedAny: bool, droppedAudio: bool)

  const EMPTY: Queue := Queue([], false, false, false, false)

  /** The held packets, with `len` more bytes arriving, leave a slot and fit the budget. */
  predicate Fits(cap: nat, held: seq<Packet>, len: nat) {
    |held| < cap && Bytes(held) + len <= MAX_BYTES
  }

  /** How many of the oldest packets make room. */
  function Evicted(cap: nat, held: seq<Packet>, len: nat): nat {
    if held == [] || Fits(cap, held, len) then 0 else 1 + Evicted(cap, held[1..], len)
  }

  /** How many packets at the front depend on a keyframe that is not there. */
  function Headless(held: seq<Packet>): nat {
    if held == [] || !held[0].Dependent() then 0 else 1 + Headless(held[1..])
  }

  lemma EvictedBound(cap: nat, held: seq<Packet>, len: nat)
    ensures Evicted(cap, held, len) <= |held|
  {}

  lemma HeadlessBound(held: seq<Packet>)
    ensures Headless(held) <= |held|
  {}

  /** How many packets a push removes from the front. */
  function Removed(cap: nat, s: Queue, len: nat): (n: nat)
    ensures n <= |s.held|
  {
    EvictedBound(cap, s.held, len);
    var k := Evicted(cap, s.held, len);
    HeadlessBound(s.held[k..]);
    if k > 0 && (s.droppedKey || AnyKey(s.held[..k])) then k + Headless(s.held[k..]) else k
  }

  /** The queue after a push, and whether anything was dropped to make room. */
  function PushTo(cap: nat, s: Queue, p: Packet): Queue {
    if s.closed then s
    else
      EvictedBound(cap, s.held, p.len);
      var k := Evicted(cap, s.held, p.len);
      s.(held := s.held[Removed(cap, s, p.len)..] + [p],
         droppedKey := s.droppedKey || AnyKey(s.held[..k]),
         droppedAny := s.droppedAny || k > 0,
         droppedAudio := s.droppedAudio || AnyAudio(s.held[..k]))
  }

  /** The queue after a pop that asks for a status. */
  function PopFrom(s: Queue): Queue {
    if s.held == [] then s else s.(held := s.held[1..], droppedKey := false, droppedAny := false)
  }

  // ------------------------------------------------------------------
  // The ring

  /** The slot i places behind `head`. */
  function Slot(head: nat, i: nat, cap: nat): nat
    requires head < cap && i <= cap
  {
    if head + i < cap then head + i else head + i - cap
  }

  lemma SlotIsModulo(head: nat, i: nat, cap: nat)
    requires head < cap && i <= cap
    ensures Slot(head, i, cap) == (head + i) % cap
  {
    var q, r := (head + i) / cap, (head + i) % cap;
    Multiple(q, cap);
    Multiple(q - 1, cap);
    assert q * cap + r == head + i;
    assert (q - 1) * cap == q * cap - cap;
  }

  lemma Multiple(x: int, m: nat)
    ensures x >= 1 ==> x * m >= m
    ensures x <= -1 ==> x * m + m <= 0
  {}

  class Ring {
    const slots: array<Packet>
    var head: nat
    var tail: nat
    var count: nat
    var bytes: nat
    var closed: bool
    var droppedKey: bool
    var droppedAny: bool
    var droppedAudio: bool
    /** Every packet whose reference the queue itself gave up, in order. */
    ghost var released: seq<Packet>
    /** The packets held, oldest first. */
    ghost var held: seq<Packet>

    ghost predicate Shape()
      reads `head, `tail, `count
    {
      0 < slots.Length && head < slots.Length && count <= slots.Length
      && tail == Slot(head, count, slots.Length)
    }

    ghost predicate Valid()
      reads `head, `tail, `count, `bytes, `held, slots
    {
      Shape() && bytes == Bytes(held) && |held| == count
      && forall i :: 0 <= i < count ==> held[i] == slots[Slot(head, i, slots.Length)]
    }

    ghost function View(): Queue
      reads this
    {
      Queue(held, closed, droppedKey, droppedAny, droppedAudio)
    }

    constructor (cap: nat, fill: Packet)
      requires 0 < cap
      ensures Valid() && fresh(slots) && slots.Length == cap && View() == EMPTY && released == []
    {
      slots := new Packet[cap](_ => fill);
      head, tail, count, bytes := 0, 0, 0, 0;
      closed, droppedKey, droppedAny, droppedAudio := false, false, false, false;
      released, held := [], [];
    }

    /** Take the oldest packet out. */
    method DropHead() returns (p: Packet)
      requires Valid() && 0 < count
      modifies this`head, this`count, this`bytes, this`held
      ensures Valid() && p == old(held)[0] && held == old(held)[1..]
      ensures count == old(count) - 1
    {
      p := slots[head];
      SlotIsModulo(head, 1, slots.Length);
      head := (head + 1) % slots.Length;
      count := count - 1;
      held := held[1..];
      bytes := bytes - p.len;
    }

    method Append(p: Packet)
      requires Valid() && count < slots.Length
      modifies this`tail, this`count, this`bytes, this`held, slots
      ensures Valid() && held == old(held) + [p]
    {
      BytesAppend(held, p);
      slots[tail] := p;
      SlotIsModulo(tail, 1, slots.Length);
      tail := (tail + 1) % slots.Length;
      count := count + 1;
      held := held + [p];
      bytes := bytes + p.len;
    }

    /** Drop the oldest packet and remember what kind it was. */
    method EvictOldest()
      requires Valid() && 0 < count
      modifies this`head, this`count, this`bytes, this`held, this`droppedKey, this`droppedAny, this`droppedAudio, this`released
      ensures Valid() && held == old(held)[1..] && count == old(count) - 1
      ensures var p := old(held)[0];
              && droppedKey == (old(droppedKey) || p.VideoKey())
              && droppedAudio == (old(droppedAudio) || p.media == Audio)
              && droppedAny && released == old(released) + [p]
    {
      var oldest := DropHead();
      if oldest.media == Video && oldest.key { droppedKey := true; }
      if oldest.media == Audio { droppedAudio := true; }
      released := released + [oldest];
      droppedAny := true;
    }

    /** Drop the oldest packets until `len` bytes more leave a slot and fit the budget. */
    method MakeRoom(len: nat) returns (dropped: bool)
      requires Valid()
      modifies this`head, this`count, this`bytes, this`held, this`droppedKey, this`droppedAny, this`droppedAudio, this`released
      ensures Valid()
      ensures var start := old(held);
              var k := Evicted(slots.Length, start, len);
              && k <= |start| && held == start[k..] && dropped == (k > 0)
              && released == old(released) + start[..k]
              && droppedKey == (old(droppedKey) || AnyKey(start[..k]))
              && droppedAudio == (old(droppedAudio) || AnyAudio(start[..k]))
              && droppedAny == (old(droppedAny) || k > 0)
    {
      dropped := false;
      ghost var before, gone, k := View(), released, 0;
      while count > 0 && (count == slots.Length || bytes + len > MAX_BYTES)
        invariant Valid() && Dropped(before, gone, k, View(), released) && dropped == (k > 0)
        invariant k + Evicted(slots.Length, held, len) == Evicted(slots.Length, before.held, len)
        decreases count
      {
        ghost var now, out := View(), released;
        EvictOldest();
        DroppedOne(before, gone, k, now, out, View(), released);
        dropped := true;
        k := k + 1;
      }
    }

    /** Drop forward through the video packets a lost keyframe left undecodable. */
    method DropHeadless()
      requires Valid()
      modifies this`head, this`count, this`bytes, this`held, this`released
      ensures Valid()
      ensures var start := old(held);
              var m := Headless(start);
              m <= |start| && held == start[m..] && released == old(released) + start[..m]
    {
      ghost var start, gone, m := held, released, 0;
      while count > 0
        invariant Valid() && 0 <= m <= |start| && held == start[m..]
        invariant m + Headless(start[m..]) == Headless(start)
        invariant released == gone + start[..m]
        decreases count
      {
        var first := slots[head];
        assert first == start[m];
        if first.media != Video || first.key { break; }
        var h := DropHead();
        assert start[..m + 1] == start[..m] + [h] && start[m..][1..] == start[m + 1..];
        released := released + [h];
        m := m + 1;
      }
    }

    /** Everything a push removes before it appends. */
    method Admit(len: nat) returns (dropped: bool)
      requires Valid() && !closed
      modifies this`head, this`count, this`bytes, this`held, this`droppedKey, this`droppedAny, this`droppedAudio, this`released
      ensures Valid() && count < slots.Length
      ensures var before := old(View());
              var k, n := Evicted(slots.Length, before.held, len), Removed(slots.Length, before, len);
              && dropped == (k > 0) && k <= |before.held|
              && held == before.held[n..] && released == old(released) + before.held[..n]
              && droppedKey == (before.droppedKey || AnyKey(before.held[..k]))
              && droppedAudio == (before.droppedAudio || AnyAudio(before.held[..k]))
              && droppedAny == (before.droppedAny || k > 0)
    {
      ghost var before, gone := View(), released;
      dropped := MakeRoom(len);
      ghost var mid, out := View(), released;
      if dropped && droppedKey { DropHeadless(); }
      AdmittedIs(slots.Length, before, gone, len, mid, out, View(), released);
    }

    /** Takes over the caller's reference. Never blocks, never refuses an open queue. */
    method Push(p: Packet) returns (dropped: bool)
      requires Valid()
      modifies this, slots
      ensures Valid()
      ensures View() == PushTo(slots.Length, old(View()), p)
      ensures dropped <==> !old(closed) && Evicted(slots.Length, old(held), p.len) > 0
      ensures released == old(released) + if old(closed) then [p]
                else old(held)[..Removed(slots.Length, old(View()), p.len)]
    {
      dropped := false;
      if closed {
        released := released + [p];
        return;
      }
      dropped := Admit(p.len);
      Append(p);
    }

    /** Take the oldest packet if there is one; report and clear the losses with it. */
    method PopEx() returns (got: bool, p: Packet, lostKey: bool, lostAny: bool)
      requires Valid()
      modifies this`head, this`count, this`bytes, this`held, this`droppedKey, this`droppedAny
      ensures Valid() && View() == PopFrom(old(View()))
      ensures got == (old(held) != [])
      ensures got ==> p == old(held)[0] && lostKey == old(droppedKey) && lostAny == old(droppedAny)
      ensures !got ==> !lostKey && !lostAny
    {
      got, lostKey, lostAny := count > 0, false, false;
      p := slots[head];
      if got {
        p := DropHead();
        lostKey, lostAny := droppedKey, droppedAny;
        droppedKey, droppedAny := false, false;
      }
    }

    method TakeDroppedAudio() returns (lost: bool)
      requires Valid()
      modifies this`droppedAudio
      ensures Valid() && lost == old(droppedAudio) && View() == old(View()).(droppedAudio := false)
    {
      lost := droppedAudio;
      droppedAudio := false;
    }

    method Close()
      requires Valid()
      modifies this`closed
      ensures Valid() && View() == old(View()).(closed := true)
    {
      closed := true;
    }

    /** Give up the reference of every packet still held. */
    method Free()
      requires Valid()
      modifies this`count, this`bytes, this`held, this`released
      ensures released == old(released) + old(held) && count == 0 && bytes == 0
    {
      ghost var gone, start := released, held;
      var i := 0;
      while i < count
        invariant 0 <= i <= count == |start| && Valid() && held == start
        invariant released == gone + start[..i]
      {
        SlotIsModulo(head, i, slots.Length);
        released := released + [slots[(head + i) % slots.Length]];
        i := i + 1;
      }
      assert start[..i] == start;
      count, bytes, held := 0, 0, [];
    }
  }

  lemma Associate<T>(a: seq<T>, b: seq<T>, c: seq<T>)
    ensures (a + b) + c == a + (b + c)
  {}

  lemma Splice<T>(q: seq<T>, k: nat, m: nat)
    requires k <= |q| && m <= |q| - k
    ensures q[k..][m..] == q[k + m..] && q[..k] + q[k..][..m] == q[..k + m]
  {}

  /** What a push removes is what it evicts and then the headless packets behind it. */
  /** The first k packets were dropped one by one, and the flags say what they were. */
  predicate Dropped(before: Queue, gone: seq<Packet>, k: nat, now: Queue, released: seq<Packet>) {
    && k <= |before.held| && now.held == before.held[k..] && released == gone + before.held[..k]
    && now.closed == before.closed
    && now.droppedKey == (before.droppedKey || AnyKey(before.held[..k]))
    && now.droppedAudio == (before.droppedAudio || AnyAudio(before.held[..k]))
    && now.droppedAny == (before.droppedAny || k > 0)
  }

  lemma DroppedOne(before: Queue, gone: seq<Packet>, k: nat, now: Queue, out: seq<Packet>, next: Queue, released: seq<Packet>)
    requires Dropped(before, gone, k, now, out) && now.held != []
    requires var p := now.held[0];
             && next == Queue(now.held[1..], now.closed, now.droppedKey || p.VideoKey(), true, now.droppedAudio || p.media == Audio)
             && released == out + [p]
    ensures Dropped(before, gone, k + 1, next, released)
  {
    var start := before.held;
    assert start[..k + 1] == start[..k] + [start[k]] && start[k..][1..] == start[k + 1..];
    KeySnoc(start[..k], start[k]);
    Associate(gone, start[..k], [start[k]]);
  }

  /** What a push has removed before it appends. */
  lemma AdmittedIs(cap: nat, before: Queue, gone: seq<Packet>, len: nat, mid: Queue, out: seq<Packet>, after: Queue, released: seq<Packet>)
    requires 0 < cap && Dropped(before, gone, Evicted(cap, before.held, len), mid, out)
    requires var m := if Evicted(cap, before.held, len) > 0 && mid.droppedKey then Headless(mid.held) else 0;
             m <= |mid.held| && after == mid.(held := mid.held[m..]) && released == out + mid.held[..m]
    ensures var n := Removed(cap, before, len);
            |after.held| < cap && after.held == before.held[n..] && released == gone + before.held[..n]
  {
    var k, n := Evicted(cap, before.held, len), Removed(cap, before, len);
    RemovedInTwo(cap, before, len);
    Splice(before.held, k, n - k);
    Associate(gone, before.held[..k], before.held[k..][..n - k]);
  }

  lemma RemovedInTwo(cap: nat, s: Queue, len: nat)
    requires 0 < cap
    ensures var k, n := Evicted(cap, s.held, len), Removed(cap, s, len);
            && k <= n <= |s.held| && |s.held| - k < cap
            && n - k == (if k > 0 && (s.droppedKey || AnyKey(s.held[..k])) then Headless(s.held[k..]) else 0)
  {
    var k := Evicted(cap, s.held, len);
    EvictedIsShortest(cap, s.held, len);
    HeadlessBound(s.held[k..]);
    if k < |s.held| { assert Fits(cap, s.held[k..], len); }
  }

  lemma {:induction false} BytesAppend(q: seq<Packet>, p: Packet)
    ensures Bytes(q + [p]) == Bytes(q) + p.len
  {
    if q == [] {
      assert q + [p] == [p];
    } else {
      assert (q + [p])[1..] == q[1..] + [p];
      BytesAppend(q[1..], p);
    }
  }

  // ------------------------------------------------------------------
  // Budget and headless groups

  lemma {:induction false} EvictedIsShortest(cap: nat, held: seq<Packet>, len: nat)
    ensures var k := Evicted(cap, held, len);
            && k <= |held| && (k == |held| || Fits(cap, held[k..], len))
            && forall j :: 0 <= j < k ==> !Fits(cap, held[j..], len)
  {
    if held != [] && !Fits(cap, held, len) {
      EvictedIsShortest(cap, held[1..], len);
      var k := Evicted(cap, held, len);
      assert held[1..][k - 1..] == held[k..];
      forall j | 0 <= j < k ensures !Fits(cap, held[j..], len) {
        if j > 0 { assert held[1..][j - 1..] == held[j..]; } else { assert held[0..] == held; }
      }
    }
  }

  lemma {:induction false} HeadlessStops(held: seq<Packet>)
    ensures var m := Headless(held);
            && m <= |held| && (m < |held| ==> !held[m].Dependent())
            && forall j :: 0 <= j < m ==> held[j].Dependent()
  {
    if held != [] && held[0].Dependent() {
      HeadlessStops(held[1..]);
    }
  }

  /** After a push to an open queue the budget holds unless the newcomer is alone; what was
      removed is the shortest front that makes room, followed, if a keyframe is missing and
      this push evicted, by the dependent packets it left behind. */
  lemma PushBudget(cap: nat, s: Queue, p: Packet)
    requires 0 < cap && !s.closed
    ensures var r := PushTo(cap, s, p);
            var n := Removed(cap, s, p.len);
            && |r.held| <= cap
            && (Bytes(r.held) <= MAX_BYTES || r.held == [p])
            && r.held == s.held[n..] + [p]
            && (r.droppedKey && Evicted(cap, s.held, p.len) > 0 && n < |s.held| ==> !s.held[n].Dependent())
            && (n > 0 ==> forall j :: 0 <= j < Evicted(cap, s.held, p.len) ==> !Fits(cap, s.held[j..], p.len))
            && forall j :: Evicted(cap, s.held, p.len) <= j < n ==> s.held[j].Dependent()
  {
    var n := Removed(cap, s, p.len);
    RemovedFits(cap, s, p.len);
    RemovedTail(cap, s, p.len);
    EvictedIsShortest(cap, s.held, p.len);
    BytesAppend(s.held[n..], p);
    if n == |s.held| { assert s.held[n..] + [p] == [p]; }
  }

  lemma EvictedFits(cap: nat, held: seq<Packet>, len: nat)
    ensures var k := Evicted(cap, held, len); k <= |held| && (k == |held| || Fits(cap, held[k..], len))
  {
    EvictedIsShortest(cap, held, len);
  }

  lemma FewerFit(cap: nat, q: seq<Packet>, len: nat, m: nat)
    requires 0 < cap && (q == [] || Fits(cap, q, len)) && m <= |q|
    ensures |q| - m < cap && (m < |q| ==> Bytes(q[m..]) + len <= MAX_BYTES)
  {
    BytesSuffix(q, m);
  }

  lemma RemovedFits(cap: nat, s: Queue, len: nat)
    requires 0 < cap
    ensures var n := Removed(cap, s, len);
            |s.held| - n < cap && (n < |s.held| ==> Bytes(s.held[n..]) + len <= MAX_BYTES)
  {
    var k, n := Evicted(cap, s.held, len), Removed(cap, s, len);
    RemovedInTwo(cap, s, len);
    EvictedFits(cap, s.held, len);
    FewerFit(cap, s.held[k..], len, n - k);
    assert s.held[k..][n - k..] == s.held[n..];
  }

  /** What goes beyond the shortest front depends on a keyframe, what comes next does not. */
  lemma RemovedTail(cap: nat, s: Queue, len: nat)
    requires 0 < cap
    ensures var k, n := Evicted(cap, s.held, len), Removed(cap, s, len);
            && k <= n <= |s.held|
            && (k > 0 && (s.droppedKey || AnyKey(s.held[..k])) && n < |s.held| ==> !s.held[n].Dependent())
            && forall j :: k <= j < n ==> s.held[j].Dependent()
  {
    var k, n := Evicted(cap, s.held, len), Removed(cap, s, len);
    RemovedInTwo(cap, s, len);
    HeadlessStops(s.held[k..]);
    forall j | k <= j < n ensures s.held[j].Dependent() { assert s.held[j] == s.held[k..][j - k]; }
  }

  lemma {:induction false} BytesSuffix(q: seq<Packet>, n: nat)
    requires n <= |q|
    ensures Bytes(q[n..]) <= Bytes(q)
  {
    if n > 0 {
      BytesSuffix(q[1..], n - 1);
      assert q[1..][n - 1..] == q[n..];
    } else {
      assert q[0..] == q;
    }
  }

  // ------------------------------------------------------------------
  // Exact loss reporting

  /** What may happen to a queue whose consumer always asks for a status. */
  datatype Op = Push(p: Packet) | Pop | Close

  /** What one successful pop told the consumer. */
  datatype Report = Report(p: Packet, lostAny: bool, lostKey: bool)

  datatype History = History(s: Queue, accepted: seq<Packet>, reports: seq<Report>)

  function Step(cap: nat, h: History, op: Op): History {
    match op
    case Push(p) =>
      h.(s := PushTo(cap, h.s, p), accepted := if h.s.closed then h.accepted else h.accepted + [p])
    case Pop =>
      h.(s := PopFrom(h.s),
         reports := if h.s.held == [] then h.reports
                    else h.reports + [Report(h.s.held[0], h.s.droppedAny, h.s.droppedKey)])
    case Close => h.(s := h.s.(closed := true))
  }

  function Play(cap: nat, ops: seq<Op>): History
    decreases |ops|
  {
    if ops == [] then History(EMPTY, [], []) else Step(cap, Play(cap, ops[..|ops| - 1]), ops[|ops| - 1])
  }

  /** Where in the log of accepted packets each report's packet stands. */
  predicate Located(h: History, at: seq<nat>) {
    && |at| == |h.reports|
    && (forall j :: 0 <= j < |at| ==> at[j] < |h.accepted| && h.reports[j].p == h.accepted[at[j]])
    && (forall i, j :: 0 <= i < j < |at| ==> at[i] < at[j])
  }

  /** Position after the previous report. */
  function Next(at: seq<nat>, j: nat): nat
    requires j <= |at|
  {
    if j == 0 then 0 else at[j - 1] + 1
  }

  /** Report j names exactly what is missing between it and the one before. */
  predicate ReportExact(h: History, at: seq<nat>, j: nat)
    requires Located(h, at) && j < |at|
  {
    && Next(at, j) <= at[j]
    && (h.reports[j].lostAny <==> Next(at, j) < at[j])
    && (h.reports[j].lostKey <==> AnyKey(h.accepted[Next(at, j)..at[j]]))
  }

  predicate Exact(h: History, at: seq<nat>) {
    Located(h, at) && forall j :: 0 <= j < |at| ==> ReportExact(h, at, j)
  }

  /** The queue is a suffix of the log; its flags describe the gap before it. */
  predicate Tracks(h: History, at: seq<nat>, front: nat) {
    && Exact(h, at)
    && Next(at, |at|) <= front <= |h.accepted| && h.s.held == h.accepted[front..]
    && (h.s.droppedAny <==> Next(at, |at|) < front)
    && (h.s.droppedKey <==> AnyKey(h.accepted[Next(at, |at|)..front]))
  }

  lemma KeySnoc(q: seq<Packet>, p: Packet)
    ensures AnyKey(q + [p]) <==> AnyKey(q) || p.VideoKey()
    ensures AnyAudio(q + [p]) <==> AnyAudio(q) || p.media == Audio
  {
    assert (q + [p])[..|q|] == q;
  }

  lemma {:induction false} AnyKeyConcat(a: seq<Packet>, b: seq<Packet>)
    ensures AnyKey(a + b) <==> AnyKey(a) || AnyKey(b)
    decreases |b|
  {
    if b == [] {
      assert a + b == a;
    } else {
      AnyKeyConcat(a, b[..|b| - 1]);
      assert (a + b)[..|a + b| - 1] == a + b[..|b| - 1];
    }
  }

  lemma {:induction false} DependentsHaveNoKey(q: seq<Packet>)
    requires forall j :: 0 <= j < |q| ==> q[j].Dependent()
    ensures !AnyKey(q)
    decreases |q|
  {
    if q != [] { DependentsHaveNoKey(q[..|q| - 1]); }
  }

  /** A longer log changes nothing about the reports made so far. */
  lemma ExactExtends(h: History, at: seq<nat>, s: Queue, p: Packet)
    requires Exact(h, at)
    ensures Exact(h.(s := s, accepted := h.accepted + [p]), at)
  {
    var h' := h.(s := s, accepted := h.accepted + [p]);
    forall j | 0 <= j < |at| ensures ReportExact(h', at, j) {
      assert ReportExact(h, at, j);
      assert h'.accepted[Next(at, j)..at[j]] == h.accepted[Next(at, j)..at[j]];
    }
  }

  /** What a push removes carries a keyframe exactly when the flag says so. */
  lemma RemovedKeys(cap: nat, s: Queue, len: nat)
    ensures var k, n := Evicted(cap, s.held, len), Removed(cap, s, len);
            && k <= n <= |s.held| && (k == 0 ==> n == 0)
            && (AnyKey(s.held[..n]) <==> AnyKey(s.held[..k]))
  {
    var k, n := Evicted(cap, s.held, len), Removed(cap, s, len);
    EvictedBound(cap, s.held, len);
    HeadlessStops(s.held[k..]);
    assert forall j :: 0 <= j < n - k ==> s.held[k..n][j] == s.held[k..][j];
    DependentsHaveNoKey(s.held[k..n]);
    assert s.held[..n] == s.held[..k] + s.held[k..n];
    AnyKeyConcat(s.held[..k], s.held[k..n]);
  }

  lemma ExactIgnoresQueue(h: History, at: seq<nat>, s: Queue)
    requires Exact(h, at)
    ensures Exact(h.(s := s), at)
  {
    var h' := h.(s := s);
    forall j | 0 <= j < |at| ensures ReportExact(h', at, j) {
      assert ReportExact(h, at, j);
    }
  }

  lemma SuffixMoves<T>(log: seq<T>, gap: nat, front: nat, n: nat, p: T)
    requires gap <= front <= |log| && n <= |log| - front
    ensures (log + [p])[front + n..] == log[front..][n..] + [p]
    ensures (log + [p])[gap..front + n] == log[gap..front] + log[front..][..n]
  {}

  /** n packets leave the front and one joins: the flags take in what left. */
  lemma MovesOn(h: History, at: seq<nat>, front: nat, n: nat, s': Queue, p: Packet)
    requires Tracks(h, at, front) && n <= |h.s.held| && s'.held == h.s.held[n..] + [p]
    requires s'.droppedAny <==> h.s.droppedAny || n > 0
    requires s'.droppedKey <==> h.s.droppedKey || AnyKey(h.s.held[..n])
    ensures Tracks(h.(s := s', accepted := h.accepted + [p]), at, front + n)
  {
    var gap := Next(at, |at|);
    ExactExtends(h, at, s', p);
    SuffixMoves(h.accepted, gap, front, n, p);
    AnyKeyConcat(h.accepted[gap..front], h.s.held[..n]);
  }

  lemma PushTracks(cap: nat, h: History, at: seq<nat>, front: nat, p: Packet) returns (front': nat)
    requires Tracks(h, at, front) && !h.s.closed
    ensures Tracks(h.(s := PushTo(cap, h.s, p), accepted := h.accepted + [p]), at, front')
  {
    PushFlags(cap, h.s, p);
    MovesOn(h, at, front, Removed(cap, h.s, p.len), PushTo(cap, h.s, p), p);
    front' := front + Removed(cap, h.s, p.len);
  }

  lemma PushFlags(cap: nat, s: Queue, p: Packet)
    requires !s.closed
    ensures var s', n := PushTo(cap, s, p), Removed(cap, s, p.len);
            && s'.held == s.held[n..] + [p]
            && (s'.droppedAny <==> s.droppedAny || n > 0)
            && (s'.droppedKey <==> s.droppedKey || AnyKey(s.held[..n]))
  {
    RemovedKeys(cap, s, p.len);
  }

  lemma LocatedReports(h: History, at: seq<nat>, r: Report, front: nat, s: Queue)
    requires Located(h, at) && Next(at, |at|) <= front < |h.accepted| && r.p == h.accepted[front]
    ensures Located(h.(s := s, reports := h.reports + [r]), at + [front])
  {
    forall i | 0 <= i < |at| ensures at[i] < front {
      if i < |at| - 1 { assert at[i] < at[|at| - 1]; }
    }
  }

  lemma ExactReports(h: History, at: seq<nat>, r: Report, front: nat, s: Queue)
    requires Exact(h, at) && Next(at, |at|) <= front < |h.accepted| && r.p == h.accepted[front]
    requires r.lostAny <==> Next(at, |at|) < front
    requires r.lostKey <==> AnyKey(h.accepted[Next(at, |at|)..front])
    ensures Exact(h.(s := s, reports := h.reports + [r]), at + [front])
  {
    LocatedReports(h, at, r, front, s);
    var h', at' := h.(s := s, reports := h.reports + [r]), at + [front];
    forall j | 0 <= j < |at'| ensures ReportExact(h', at', j) {
      if j < |at| {
        assert ReportExact(h, at, j) && Next(at', j) == Next(at, j);
      }
    }
  }

  lemma PopTracks(h: History, at: seq<nat>, front: nat)
    requires Tracks(h, at, front) && h.s.held != []
    ensures Tracks(h.(s := PopFrom(h.s), reports := h.reports + [Report(h.s.held[0], h.s.droppedAny, h.s.droppedKey)]),
                   at + [front], front + 1)
  {
    ExactReports(h, at, Report(h.s.held[0], h.s.droppedAny, h.s.droppedKey), front, PopFrom(h.s));
    assert !AnyKey(h.accepted[front + 1..front + 1]);
  }

  /** One operation keeps the queue a suffix of the log. */
  lemma StepTracks(cap: nat, h: History, at: seq<nat>, front: nat, op: Op) returns (at': seq<nat>, front': nat)
    requires Tracks(h, at, front)
    ensures Tracks(Step(cap, h, op), at', front')
  {
    at', front' := at, front;
    match op
    case Push(p) =>
      if !h.s.closed { front' := PushTracks(cap, h, at, front, p); }
    case Pop =>
      if h.s.held != [] {
        PopTracks(h, at, front);
        at', front' := at + [front], front + 1;
      }
    case Close =>
      ExactIgnoresQueue(h, at, h.s.(closed := true));
  }

  lemma {:induction false} PlayTracks(cap: nat, ops: seq<Op>) returns (at: seq<nat>, front: nat)
    ensures Tracks(Play(cap, ops), at, front)
    decreases |ops|
  {
    if ops == [] {
      at, front := [], 0;
      assert Exact(History(EMPTY, [], []), at);
    } else {
      at, front := PlayTracks(cap, ops[..|ops| - 1]);
      at, front := StepTracks(cap, Play(cap, ops[..|ops| - 1]), at, front, ops[|ops| - 1]);
    }
  }

  /** For every interleaving of pushes, pops and a close: the consumer gets a subsequence of
      the accepted packets in order, is told of a loss exactly when packets are missing
      since the previous one it got, and of a lost keyframe exactly when one is among them. */
  lemma ExactLossReporting(cap: nat, ops: seq<Op>) returns (at: seq<nat>)
    ensures Exact(Play(cap, ops), at)
  {
    var front: nat;
    at, front := PlayTracks(cap, ops);
  }
}
