/** The motion ring and the day/night history ring of src/events.c, read through cursors
    their readers keep, against the logs of everything ever pushed.
  */
module Rings {

  const WORD: nat := 0x1_0000_0000
  const HALF: nat := 0x8000_0000

  /** 32-bit unsigned subtraction. */
  function Minus(a: nat, b: nat): nat
    requires a < WORD && b < WORD
  {
    if a >= b then a - b else a + WORD - b
  }

  /** The signed reading of a 32-bit word. */
  function Signed(x: nat): int
    requires x < WORD
  {
    if x < HALF then x else x - WORD
  }

  // ------------------------------------------------------------------
  // Motion

  const MQ_CAP: nat := 32

  /** Where a reader that has consumed the first `a` of `n` snapshots goes on: nothing
      retained is skipped, and what is no longer retained is. */
  function Resume(n: nat, a: nat): nat {
    if n > a + MQ_CAP then n - MQ_CAP else a
  }

  class MotionRing<T(0)> {
    const slots: array<T>
    var seqNo: nat
    ghost var log: seq<T>

    ghost predicate Valid()
      reads this, slots
    {
      slots.Length == MQ_CAP && seqNo == |log| % WORD
      && forall n :: 0 <= n < |log| && |log| <= n + MQ_CAP ==> slots[n % MQ_CAP] == log[n]
    }

    constructor ()
      ensures Valid() && fresh(slots) && log == []
    {
      slots := new T[MQ_CAP];
      seqNo, log := 0, [];
    }

    method Push(st: T)
      requires Valid()
      modifies this, slots
      ensures Valid() && log == old(log) + [st]
    {
      NextOfWord(|log|);
      forall n | 0 <= n < |log| && |log| + 1 <= n + MQ_CAP ensures n % MQ_CAP != |log| % MQ_CAP {
        SlotsDiffer(n, |log|, MQ_CAP);
      }
      slots[seqNo % MQ_CAP] := st;
      seqNo := (seqNo + 1) % WORD;
      log := log + [st];
    }

    method Cursor() returns (c: nat)
      requires Valid()
      ensures c == |log| % WORD
    {
      c := seqNo;
    }

    /** A pop through the cursor of a reader that has consumed `a` snapshots. */
    method Pop(cursor: nat, ghost a: nat) returns (got: bool, out: T, cursor': nat)
      requires Valid() && a <= |log| && cursor == a % WORD
      ensures var r := PopsFrom(|log|, a);
              && got == (r < |log|)
              && (got ==> out == log[r] && cursor' == (r + 1) % WORD)
              && (!got ==> cursor' == cursor)
    {
      PopArithmetic(|log|, a);
      cursor', got, out := cursor, false, slots[0];
      if Minus(seqNo, cursor) > MQ_CAP { cursor' := Minus(seqNo, MQ_CAP); }
      if cursor' != seqNo {
        out, got := slots[cursor' % MQ_CAP], true;
        cursor' := (cursor' + 1) % WORD;
      }
    }
  }

  lemma PopArithmetic(n: nat, a: nat)
    requires a <= n
    ensures var r := PopsFrom(n, a);
            var c := if Minus(n % WORD, a % WORD) > MQ_CAP then Minus(n % WORD, MQ_CAP) else a % WORD;
            && r <= n <= r + MQ_CAP && c == r % WORD && (c != n % WORD <==> r < n)
            && c % MQ_CAP == r % MQ_CAP && (c + 1) % WORD == (r + 1) % WORD
            && (r == n ==> c == a % WORD)
  {
    LagOfWords(n, a);
    var r, lag := PopsFrom(n, a), (n - a) % WORD;
    NextOfWord(r);
    if lag > MQ_CAP { LappedWord(n); } else { UnlappedWord(n, a); }
  }

  lemma LagOfWords(n: nat, a: nat)
    requires a <= n
    ensures Minus(n % WORD, a % WORD) == (n - a) % WORD
  {}

  lemma NextOfWord(r: nat)
    ensures (r % WORD) % MQ_CAP == r % MQ_CAP && (r % WORD + 1) % WORD == (r + 1) % WORD
  {}

  lemma LappedWord(n: nat)
    requires n >= MQ_CAP
    ensures Minus(n % WORD, MQ_CAP) == (n - MQ_CAP) % WORD != n % WORD
  {}

  lemma UnlappedWord(n: nat, a: nat)
    requires a <= n && (n - a) % WORD <= MQ_CAP
    ensures a % WORD == (n - (n - a) % WORD) % WORD
    ensures a % WORD == n % WORD <==> (n - a) % WORD == 0
  {}

  /** The 32-bit cursor still says where the reader is: it lags by less than the counter's
      range, or by an amount the counter shows as lapped all the same. */
  predicate InStep(n: nat, a: nat) {
    a <= n && (n - a < WORD || (n - a) % WORD >= MQ_CAP)
  }

  /** Where a pop reads, computed from the 32-bit counters. */
  function PopsFrom(n: nat, a: nat): nat
    requires a <= n
  {
    var lag := (n - a) % WORD;
    if lag > MQ_CAP then n - MQ_CAP else n - lag
  }

  /** Wrap-around is invisible exactly as long as the cursor is in step. */
  lemma WrapIsInvisible(n: nat, a: nat)
    requires a <= n
    ensures PopsFrom(n, a) == Resume(n, a) <==> InStep(n, a)
  {}

  // ------------------------------------------------------------------
  // History

  datatype Sample = Sample(t: nat, gain: real, exposure: real, luma: int, bright: int, mode: int)

  const PERIOD_S: nat := 10

  function Min(a: nat, b: nat): nat { if a < b then a else b }

  /** The oldest position a ring of this capacity retains. */
  function Oldest(n: nat, cap: nat, base: nat): nat {
    var win := if n > cap then n - cap else 0;
    if base > win then base else win
  }

  /** What the ring amounts to: everything recorded, the capacity, and the first position
      the current buffer was ever given. */
  datatype Hist = Hist(log: seq<Sample>, cap: nat, base: nat)
  {
    predicate Shaped() {
      |log| < HALF && base <= |log| && cap < HALF && (cap == 0 ==> base == |log|)
    }

    function First(): nat { Oldest(|log|, cap, base) }

    function Held(): int { |log| - First() }
  }

  /** A capacity change keeps the newest samples that fit; a failed allocation keeps all. */
  function Resized(h: Hist, newcap: nat, granted: bool): Hist
    requires h.Shaped()
  {
    if newcap == 0 then h.(cap := 0, base := |h.log|)
    else if newcap == h.cap || !granted then h
    else h.(cap := newcap, base := |h.log| - Min(h.Held(), newcap))
  }

  /** How many samples a retention asks for. */
  function Want(retain: int): nat {
    if retain <= 0 then 0 else if retain / PERIOD_S == 0 then 1 else retain / PERIOD_S
  }

  function Recorded(h: Hist, s: Sample, retain: int, now: nat, granted: bool): Hist
    requires h.Shaped() && retain < HALF
  {
    var r := Resized(h, Want(retain), granted);
    if r.cap == 0 then r else r.(log := r.log + [s.(t := now)])
  }

  datatype Page = Page(out: seq<Sample>, next: nat, lapped: bool)

  function Paged(h: Hist, from: nat, max: int): Page
    requires h.Shaped()
  {
    if h.cap == 0 then Page([], from, false)
    else
      var lapped := !(h.First() <= from <= |h.log|);
      var start := if lapped then h.First() else from;
      var n := Min(if max < 0 then 0 else max, |h.log| - start);
      Page(h.log[start..start + n], start + n, lapped)
  }

  /** A resize keeps exactly the newest min(held, new capacity) samples. */
  lemma ResizeKeepsNewest(h: Hist, newcap: nat)
    requires h.Shaped() && newcap < HALF
    ensures var r := Resized(h, newcap, true);
            r.Shaped() && r.log == h.log && r.Held() == Min(h.Held(), newcap) && r.cap == newcap
    ensures Resized(h, newcap, false).Shaped() && (newcap > 0 ==> Resized(h, newcap, false) == h)
  {}

  lemma Multiple(q: int, cap: nat)
    ensures q >= 1 ==> q * cap >= cap
    ensures q <= -1 ==> q * cap + cap <= 0
  {}

  /** Positions within one capacity of each other use different slots. */
  lemma SlotsDiffer(n: nat, m: nat, cap: nat)
    requires n < m < n + cap
    ensures n % cap != m % cap
  {
    var q := m / cap - n / cap;
    assert m - n == q * cap + (m % cap - n % cap) by {
      assert m == (m / cap) * cap + m % cap && n == (n / cap) * cap + n % cap;
      assert (m / cap) * cap - (n / cap) * cap == q * cap;
    }
    Multiple(q, cap);
  }

  class HistoryRing {
    var buf: array?<Sample>
    var cap: nat
    var seqNo: nat
    var base: nat
    ghost var log: seq<Sample>

    ghost function View(): Hist
      reads this
    {
      Hist(log, cap, base)
    }

    /** Each retained position holds the sample pushed under it. */
    ghost predicate Valid()
      reads this, buf
    {
      && View().Shaped() && seqNo == |log|
      && (if cap == 0 then buf == null else buf != null && buf.Length == cap)
      && (buf != null ==> forall n :: View().First() <= n < seqNo ==> buf[n % cap] == log[n])
    }

    constructor ()
      ensures Valid() && View() == Hist([], 0, 0) && buf == null
    {
      buf, cap, seqNo, base, log := null, 0, 0, 0, [];
    }

    /** A new buffer with the newest `keep` samples in it. */
    method Carry(newcap: nat, keep: nat) returns (nb: array<Sample>)
      requires Valid() && 0 < newcap && keep <= newcap && (keep > 0 ==> keep <= View().Held() && buf != null)
      ensures fresh(nb) && nb.Length == newcap
      ensures forall n :: seqNo - keep <= n < seqNo ==> nb[n % newcap] == log[n]
    {
      nb := new Sample[newcap](_ => Sample(0, 0.0, 0.0, 0, 0, 0));
      var i := 0;
      while i < keep
        invariant 0 <= i <= keep
        invariant forall n :: seqNo - keep <= n < seqNo - keep + i ==> nb[n % newcap] == log[n]
      {
        var s := seqNo - keep + i;
        forall n | seqNo - keep <= n < s ensures n % newcap != s % newcap { SlotsDiffer(n, s, newcap); }
        nb[s % newcap] := buf[s % cap];
        i := i + 1;
      }
    }

    /** Lay the ring out anew; `granted` says whether the allocation succeeds. */
    method Resize(newcap: nat, granted: bool)
      requires Valid() && newcap < HALF
      modifies this
      ensures Valid() && View() == Resized(old(View()), newcap, granted)
      ensures buf != old(buf) ==> buf == null || fresh(buf)
    {
      if newcap == cap { return; }
      if newcap == 0 {
        buf, cap, base := null, 0, seqNo;
        return;
      }
      if !granted { return; }
      var have := seqNo - base;
      if have > cap { have := cap; }
      var keep := if have < newcap then have else newcap;
      var nb := Carry(newcap, keep);
      buf, cap, base := nb, newcap, seqNo - keep;
    }

    method Push(s: Sample, retain: int, now: nat, granted: bool)
      requires Valid() && |log| + 1 < HALF && retain < HALF
      modifies this, buf
      ensures Valid() && View() == Recorded(old(View()), s, retain, now, granted)
      ensures buf != old(buf) ==> buf == null || fresh(buf)
    {
      Resize(Want(retain), granted);
      if cap > 0 {
        forall n | Oldest(seqNo + 1, cap, base) <= n < seqNo ensures n % cap != seqNo % cap {
          SlotsDiffer(n, seqNo, cap);
        }
        buf[seqNo % cap] := s.(t := now);
        seqNo := seqNo + 1;
        log := log + [s.(t := now)];
      }
    }

    /** The oldest retained position, by the source's signed comparison. */
    method OldestHeld() returns (o: nat)
      requires Valid()
      ensures o == View().First() <= seqNo
    {
      var win := if seqNo > cap then seqNo - cap else 0;
      o := if Signed(Minus(base, win)) > 0 then base else win;
    }

    /** Up to `max` samples from `from` on, which may be any 32-bit word. */
    method Range(from: nat, max: int) returns (out: seq<Sample>, from': nat, lapped: bool)
      requires Valid() && from < WORD
      ensures Page(out, from', lapped) == Paged(View(), from, max)
    {
      out, from', lapped := [], from, false;
      if cap > 0 {
        var oldest := OldestHeld();
        if Signed(Minus(from, oldest)) < 0 || Signed(Minus(from, seqNo)) > 0 {
          from', lapped := oldest, true;
        }
        ghost var start := from';
        while |out| < max && from' != seqNo
          invariant start <= from' <= seqNo && out == log[start..from'] && (out == [] || |out| <= max)
          decreases seqNo - from'
        {
          out := out + [buf[from' % cap]];
          from' := from' + 1;
        }
      }
    }
  }

  // ------------------------------------------------------------------
  // Paging

  /** What the producer and one reader may do. */
  datatype Op = Push(s: Sample, retain: int, now: nat, granted: bool) | Read(max: int)

  /** The ring; the reader's cursor; what it has read since it was last told it lapped, and
      from where. */
  datatype Session = Session(h: Hist, cursor: nat, seen: seq<Sample>, start: nat)

  function Step(r: Session, op: Op): Session
    requires r.h.Shaped() && (op.Push? ==> op.retain < HALF)
  {
    match op
    case Push(s, retain, now, granted) => r.(h := Recorded(r.h, s, retain, now, granted))
    case Read(max) =>
      var p := Paged(r.h, r.cursor, max);
      r.(cursor := p.next, seen := if p.lapped then p.out else r.seen + p.out,
         start := if p.lapped then r.h.First() else r.start)
  }

  predicate Bounded(ops: seq<Op>) {
    |ops| < HALF - 1 && forall i :: 0 <= i < |ops| && ops[i].Push? ==> ops[i].retain < HALF
  }

  /** Against any pushes, capacity changes and failed allocations, what a paging reader has
      read since it was last told it lapped is the log without a gap or a repeat, and
      nothing is retained that it could still miss unnoticed. */
  function Follow(ops: seq<Op>): (r: Session)
    requires Bounded(ops)
    ensures r.h.Shaped() && |r.h.log| <= |ops|
    ensures r.start <= r.cursor <= |r.h.log| && r.seen == r.h.log[r.start..r.cursor]
  {
    if ops == [] then Session(Hist([], 0, 0), 0, [], 0)
    else
      var before := Follow(ops[..|ops| - 1]);
      StepFollows(before, ops[|ops| - 1]);
      Step(before, ops[|ops| - 1])
  }

  lemma StepFollows(r: Session, op: Op)
    requires r.h.Shaped() && |r.h.log| + 1 < HALF && (op.Push? ==> op.retain < HALF)
    requires r.start <= r.cursor <= |r.h.log| && r.seen == r.h.log[r.start..r.cursor]
    ensures var t := Step(r, op);
            && t.h.Shaped() && |t.h.log| <= |r.h.log| + 1
            && t.start <= t.cursor <= |t.h.log| && t.seen == t.h.log[t.start..t.cursor]
  {
    if op.Read? && !Paged(r.h, r.cursor, op.max).lapped {
      var next := Paged(r.h, r.cursor, op.max).next;
      assert r.h.log[r.start..next] == r.h.log[r.start..r.cursor] + r.h.log[r.cursor..next];
    }
  }

  /** One operation on the ring in place, with a 32-bit cursor, is one step of the session. */
  method Serve(ring: HistoryRing, op: Op, seen: seq<Sample>, cursor: nat, ghost r: Session)
    returns (seen': seq<Sample>, cursor': nat)
    requires ring.Valid() && ring.View() == r.h && seen == r.seen && cursor == r.cursor <= |r.h.log|
    requires |r.h.log| + 1 < HALF && (op.Push? ==> op.retain < HALF)
    modifies ring, ring.buf
    ensures ring.Valid() && ring.View() == Step(r, op).h
    ensures seen' == Step(r, op).seen && cursor' == Step(r, op).cursor
    ensures ring.buf != old(ring.buf) ==> ring.buf == null || fresh(ring.buf)
  {
    seen', cursor' := seen, cursor;
    match op {
      case Push(s, retain, now, granted) =>
        ring.Push(s, retain, now, granted);
      case Read(max) =>
        var out, next, lapped := ring.Range(cursor, max);
        seen', cursor' := if lapped then out else seen + out, next;
    }
  }
}
