/** The pre-roll ring of src/record.c: the recent packets a motion recording starts with,
    bounded by count, by time and by bytes.
  */
module PreRoll {
  import FQ = FanQueue

  const RING_CAP: nat := 256
  const RING_MAX_BYTES: nat := 4 * 1024 * 1024

  datatype Packet = Packet(pts: int, body: FQ.Packet)

  function Size(q: seq<Packet>): nat {
    if q == [] then 0 else q[0].body.len + Size(q[1..])
  }

  /** The trim by time: the oldest packets too far behind the newest one. */
  function TrimTime(q: seq<Packet>, pts: int, pre: int): seq<Packet> {
    if |q| > 1 && pts - q[0].pts > pre then TrimTime(q[1..], pts, pre) else q
  }

  /** The trim by bytes. */
  function TrimBytes(q: seq<Packet>): seq<Packet> {
    if |q| > 1 && Size(q) > RING_MAX_BYTES then TrimBytes(q[1..]) else q
  }

  function PushTo(q: seq<Packet>, p: Packet, pre: int): seq<Packet> {
    TrimBytes(TrimTime((if |q| == RING_CAP then q[1..] else q) + [p], p.pts, pre))
  }

  // ------------------------------------------------------------------
  // What the ring holds

  /** A stretch of packets the ring may keep. */
  predicate Fits(q: seq<Packet>, pre: int) {
    |q| == 1
    || (q != [] && |q| <= RING_CAP && q[|q| - 1].pts - q[0].pts <= pre && Size(q) <= RING_MAX_BYTES)
  }

  predicate Ordered(log: seq<Packet>) {
    forall i, j :: 0 <= i <= j < |log| ==> log[i].pts <= log[j].pts
  }

  /** The longest suffix that fits starts at n. */
  predicate Longest(log: seq<Packet>, pre: int, n: nat) {
    n < |log| && Fits(log[n..], pre) && forall m :: 0 <= m < n ==> !Fits(log[m..], pre)
  }

  /** The ring after a clear and these pushes. */
  function Ring(log: seq<Packet>, pre: int): seq<Packet> {
    if log == [] then [] else PushTo(Ring(log[..|log| - 1], pre), log[|log| - 1], pre)
  }

  lemma {:induction false} SizeSnoc(q: seq<Packet>, p: Packet)
    ensures Size(q + [p]) == Size(q) + p.body.len
  {
    if q == [] {
      assert q + [p] == [p] && [p][1..] == [];
    } else {
      assert (q + [p])[1..] == q[1..] + [p];
      SizeSnoc(q[1..], p);
    }
  }

  /** A longer log fits from nowhere the shorter one did not. */
  lemma FitsBefore(log: seq<Packet>, p: Packet, pre: int, m: nat)
    requires Ordered(log + [p]) && m < |log| && Fits((log + [p])[m..], pre)
    ensures Fits(log[m..], pre)
  {
    var all := log + [p];
    assert all[m..] == log[m..] + [p];
    SizeSnoc(log[m..], p);
    assert all[|log| - 1].pts <= all[|log|].pts;
  }

  lemma {:induction false} TrimTimeIs(log: seq<Packet>, pre: int, n: nat) returns (k: nat)
    requires n < |log|
    ensures n <= k < |log| && TrimTime(log[n..], log[|log| - 1].pts, pre) == log[k..]
    ensures |log| - k == 1 || log[|log| - 1].pts - log[k].pts <= pre
    ensures forall m :: n <= m < k ==> !Fits(log[m..], pre)
    decreases |log| - n
  {
    if |log| - n > 1 && log[|log| - 1].pts - log[n].pts > pre {
      assert log[n..][1..] == log[n + 1..];
      k := TrimTimeIs(log, pre, n + 1);
    } else {
      k := n;
    }
  }

  lemma {:induction false} TrimBytesIs(log: seq<Packet>, pre: int, n: nat) returns (k: nat)
    requires n < |log|
    ensures n <= k < |log| && TrimBytes(log[n..]) == log[k..]
    ensures |log| - k == 1 || Size(log[k..]) <= RING_MAX_BYTES
    ensures forall m :: n <= m < k ==> !Fits(log[m..], pre)
    decreases |log| - n
  {
    if |log| - n > 1 && Size(log[n..]) > RING_MAX_BYTES {
      assert log[n..][1..] == log[n + 1..];
      k := TrimBytesIs(log, pre, n + 1);
    } else {
      k := n;
    }
  }

  /** One push takes the longest suffix to the longest suffix. */
  lemma PushKeepsLongest(log: seq<Packet>, p: Packet, pre: int, n: nat) returns (n': nat)
    requires Ordered(log + [p])
    requires if log == [] then n == 0 else Longest(log, pre, n)
    ensures Longest(log + [p], pre, n')
    ensures PushTo(log[n..], p, pre) == (log + [p])[n'..]
  {
    var all, q := log + [p], log[n..];
    var s := if |q| == RING_CAP then n + 1 else n;
    assert (if |q| == RING_CAP then q[1..] else q) + [p] == all[s..];
    var k := TrimTimeIs(all, pre, s);
    n' := TrimBytesIs(all, pre, k);
    forall m | 0 <= m < n' ensures !Fits(all[m..], pre) {
      if m < n {
        if Fits(all[m..], pre) { FitsBefore(log, p, pre, m); }
      }
    }
    assert all[n'].pts >= all[k].pts;
  }

  /** With timestamps that never run backwards, the ring is exactly the longest suffix of
      what was pushed since the last clear that is one packet or fits all three limits. */
  lemma {:induction false} RingIsLongest(log: seq<Packet>, pre: int) returns (n: nat)
    requires Ordered(log) && log != []
    ensures Longest(log, pre, n) && Ring(log, pre) == log[n..]
    decreases |log|
  {
    var init, p := log[..|log| - 1], log[|log| - 1];
    assert init + [p] == log;
    n := 0;
    if init != [] { n := RingIsLongest(init, pre); }
    n := PushKeepsLongest(init, p, pre, n);
  }

  // ------------------------------------------------------------------
  // The ring in place

  class Buffer {
    const slots: array<Packet>
    var head: nat
    var count: nat
    var bytes: int
    /** The packets held, oldest first. */
    ghost var held: seq<Packet>
    /** Every packet whose reference the ring gave up, in order. */
    ghost var released: seq<Packet>

    ghost predicate Valid()
      reads `head, `count, `bytes, `held, slots
    {
      && slots.Length == RING_CAP && head < RING_CAP && count <= RING_CAP && |held| == count
      && bytes == Size(held)
      && forall i :: 0 <= i < count ==> held[i] == slots[FQ.Slot(head, i, RING_CAP)]
    }

    constructor (fill: Packet)
      ensures Valid() && fresh(slots) && held == [] && released == []
    {
      slots := new Packet[RING_CAP](_ => fill);
      head, count, bytes, held, released := 0, 0, 0, [], [];
    }

    method DropHead()
      requires Valid() && 0 < count
      modifies this`head, this`count, this`bytes, this`held, this`released
      ensures Valid() && held == old(held)[1..] && released == old(released) + [old(held)[0]]
    {
      bytes := bytes - slots[head].body.len;
      released := released + [held[0]];
      held := held[1..];
      FQ.SlotIsModulo(head, 1, RING_CAP);
      head := (head + 1) % RING_CAP;
      count := count - 1;
    }

    method Append(p: Packet)
      requires Valid() && count < RING_CAP
      modifies this`count, this`bytes, this`held, slots
      ensures Valid() && held == old(held) + [p]
    {
      SizeSnoc(held, p);
      FQ.SlotIsModulo(head, count, RING_CAP);
      slots[(head + count) % RING_CAP] := p;
      held := held + [p];
      count := count + 1;
      bytes := bytes + p.body.len;
    }

    /** Make room by count and append. */
    method Admit(p: Packet)
      requires Valid()
      modifies this`head, this`count, this`bytes, this`held, this`released, slots
      ensures Valid() && held == (if |old(held)| == RING_CAP then old(held)[1..] else old(held)) + [p]
      ensures released + held == old(released) + old(held) + [p]
    {
      ghost var all := released + held + [p];
      if count == RING_CAP { DropHead(); }
      assert released + held + [p] == all;
      Append(p);
    }

    method TrimByTime(p: Packet, pre: int)
      requires Valid() && count >= 1
      modifies this`head, this`count, this`bytes, this`held, this`released
      ensures Valid() && count >= 1 && held == TrimTime(old(held), p.pts, pre)
      ensures released + held == old(released) + old(held)
    {
      ghost var all, q := released + held, held;
      while count > 1
        invariant Valid() && count >= 1 && TrimTime(held, p.pts, pre) == TrimTime(q, p.pts, pre)
        invariant released + held == all
        decreases count
      {
        assert held[0] == slots[head];
        if p.pts - slots[head].pts <= pre { break; }
        assert held == [held[0]] + held[1..];
        DropHead();
      }
    }

    method TrimByBytes()
      requires Valid() && count >= 1
      modifies this`head, this`count, this`bytes, this`held, this`released
      ensures Valid() && held == TrimBytes(old(held))
      ensures released + held == old(released) + old(held)
    {
      ghost var all, q := released + held, held;
      while count > 1 && bytes > RING_MAX_BYTES
        invariant Valid() && count >= 1 && TrimBytes(held) == TrimBytes(q)
        invariant released + held == all
        decreases count
      {
        assert held == [held[0]] + held[1..];
        DropHead();
      }
    }

    method Push(p: Packet, pre: int)
      requires Valid()
      modifies this`head, this`count, this`bytes, this`held, this`released, slots
      ensures Valid() && held == PushTo(old(held), p, pre)
      ensures released + held == old(released) + old(held) + [p]
    {
      Admit(p);
      TrimByTime(p, pre);
      TrimByBytes();
    }

    method Clear()
      requires Valid()
      modifies this`head, this`count, this`bytes, this`held, this`released
      ensures Valid() && held == [] && released == old(released) + old(held)
    {
      ghost var start, gone := held, released;
      var i := 0;
      while i < count
        invariant 0 <= i <= count && Valid() && held == start && released == gone + start[..i]
      {
        FQ.SlotIsModulo(head, i, RING_CAP);
        released := released + [slots[(head + i) % RING_CAP]];
        i := i + 1;
      }
      assert start[..i] == start;
      head, count, bytes, held := 0, 0, 0, [];
    }

    /** Where the oldest keyframe is. */
    method KeyStart() returns (start: nat)
      requires Valid()
      ensures start <= count && FromKey(held) == held[start..]
    {
      start := 0;
      while start < count
        invariant start <= count && FromKey(held) == FromKey(held[start..])
      {
        FQ.SlotIsModulo(head, start, RING_CAP);
        if slots[(head + start) % RING_CAP].body.VideoKey() { return; }
        assert held[start..][1..] == held[start + 1..];
        start := start + 1;
      }
    }

    /** What the recording starts with. */
    method Flush() returns (out: seq<Packet>)
      requires Valid()
      ensures out == FromKey(held)
    {
      var start := KeyStart();
      out := [];
      var i := start;
      while i < count
        invariant start <= i <= count && out == held[start..i]
      {
        FQ.SlotIsModulo(head, i, RING_CAP);
        out := out + [slots[(head + i) % RING_CAP]];
        i := i + 1;
      }
      assert held[start..count] == held[start..];
    }
  }

  /** The packets from the oldest video keyframe on; none if there is no keyframe. */
  function FromKey(q: seq<Packet>): seq<Packet> {
    if q == [] || q[0].body.VideoKey() then q else FromKey(q[1..])
  }

  /** The flush is the longest suffix that starts with a keyframe. */
  lemma {:induction false} FlushStartsDecodable(q: seq<Packet>) returns (n: nat)
    ensures n <= |q| && FromKey(q) == q[n..]
    ensures n < |q| ==> q[n].body.VideoKey()
    ensures forall m :: 0 <= m < n ==> !q[m].body.VideoKey()
  {
    if q == [] || q[0].body.VideoKey() {
      n := 0;
    } else {
      n := FlushStartsDecodable(q[1..]);
      n := n + 1;
    }
  }
}
