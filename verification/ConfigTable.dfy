/** The config table of src/events.c: the latest value of each recently changed setting in
    a fixed number of slots, read by any number of subscribers through cursors of their
    own, against the log of everything ever pushed.
  */
module ConfigTable {

  datatype Entry = Entry(key: string, val: string)

  /** `no` is zero in a slot that was never used. */
  datatype Slot = Slot(key: string, val: string, no: nat)

  /** `no` counts the pushes; `evict` is the newest sequence number ever evicted. */
  datatype Table = Table(slots: seq<Slot>, no: nat, evict: nat)

  const SLOTS: nat := 24
  const KEY_CAP: nat := 40
  const VAL_CAP: nat := 160

  function Start(): Table {
    Table(seq(SLOTS, _ => Slot("", "", 0)), 0, 0)
  }

  /** What fits into a buffer of `cap` bytes with its terminator. */
  function Cut(s: string, cap: nat): string
    requires 0 < cap
  {
    if |s| < cap then s else s[..cap - 1]
  }

  predicate Hit(s: Slot, key: string) {
    s.no > 0 && s.key == key
  }

  /** The first slot from i on that holds the key; |slots| if none does. */
  function FirstHit(slots: seq<Slot>, key: string, i: nat): nat
    requires i <= |slots|
    decreases |slots| - i
  {
    if i == |slots| || Hit(slots[i], key) then i else FirstHit(slots, key, i + 1)
  }

  function FirstEmpty(slots: seq<Slot>, i: nat): nat
    requires i <= |slots|
    decreases |slots| - i
  {
    if i == |slots| || slots[i].no == 0 then i else FirstEmpty(slots, i + 1)
  }

  /** Among the first n slots, the first with the least sequence number above the floor; -1
      if none is above it. */
  function Least(slots: seq<Slot>, floor: nat, n: nat): int
    requires n <= |slots|
    ensures -1 <= Least(slots, floor, n) < n
  {
    if n == 0 then -1
    else
      var best := Least(slots, floor, n - 1);
      if slots[n - 1].no > floor && (best < 0 || slots[n - 1].no < slots[best].no) then n - 1 else best
  }

  lemma {:induction false} LeastIs(slots: seq<Slot>, floor: nat, n: nat)
    requires n <= |slots|
    ensures var b := Least(slots, floor, n);
            && (b < 0 ==> forall i :: 0 <= i < n ==> slots[i].no <= floor)
            && (b >= 0 ==> slots[b].no > floor
                           && forall i :: 0 <= i < n && slots[i].no > floor ==> slots[b].no <= slots[i].no)
  {
    if n > 0 { LeastIs(slots, floor, n - 1); }
  }

  lemma {:induction false} FirstHitIs(slots: seq<Slot>, key: string, i: nat)
    requires i <= |slots|
    ensures var h := FirstHit(slots, key, i);
            && i <= h <= |slots| && (h < |slots| ==> Hit(slots[h], key))
            && forall j :: i <= j < h ==> !Hit(slots[j], key)
    decreases |slots| - i
  {
    if i < |slots| && !Hit(slots[i], key) { FirstHitIs(slots, key, i + 1); }
  }

  lemma {:induction false} FirstEmptyIs(slots: seq<Slot>, i: nat)
    requires i <= |slots|
    ensures var e := FirstEmpty(slots, i);
            && i <= e <= |slots| && (e < |slots| ==> slots[e].no == 0)
            && forall j :: i <= j < e ==> slots[j].no > 0
    decreases |slots| - i
  {
    if i < |slots| && slots[i].no > 0 { FirstEmptyIs(slots, i + 1); }
  }

  /** The slot a push writes. */
  function Chosen(slots: seq<Slot>, key: string): (c: nat)
    requires slots != []
    ensures c < |slots|
  {
    FirstHitIs(slots, key, 0);
    FirstEmptyIs(slots, 0);
    LeastIs(slots, 0, |slots|);
    var h, e := FirstHit(slots, key, 0), FirstEmpty(slots, 0);
    if h < |slots| then h else if e < |slots| then e
    else if Least(slots, 0, |slots|) >= 0 then Least(slots, 0, |slots|) else 0
  }

  function PushTo(t: Table, key: string, val: string): Table
    requires t.slots != []
  {
    var c := Chosen(t.slots, key);
    var lost := t.slots[c].no > 0 && !Hit(t.slots[c], key);
    Table(t.slots[c := Slot(Cut(key, KEY_CAP), Cut(val, VAL_CAP), t.no + 1)], t.no + 1,
          if lost && t.slots[c].no > t.evict then t.slots[c].no else t.evict)
  }

  /** The cursor after a resync, and whether one was needed. */
  function Resynced(t: Table, cursor: nat): nat {
    if cursor < t.evict then t.evict else cursor
  }

  // ------------------------------------------------------------------
  // The table in place

  class Store {
    const slots: array<Slot>
    var seqNo: nat
    var evicted: nat

    ghost predicate Valid() reads this { slots.Length == SLOTS }

    ghost function View(): Table reads this, slots { Table(slots[..], seqNo, evicted) }

    constructor ()
      ensures Valid() && fresh(slots) && View() == Start()
    {
      slots := new Slot[SLOTS](_ => Slot("", "", 0));
      seqNo, evicted := 0, 0;
    }

    /** One pass that stops at the key's slot, remembering the first empty and the oldest. */
    method Search(key: string) returns (slot: int, empty: int, oldest: int)
      requires Valid()
      ensures var h := FirstHit(slots[..], key, 0);
              && slot == (if h < slots.Length then h else -1)
              && (slot < 0 ==> empty == (if FirstEmpty(slots[..], 0) < slots.Length then FirstEmpty(slots[..], 0) else -1))
              && (slot < 0 ==> oldest == Least(slots[..], 0, slots.Length))
    {
      slot, empty, oldest := -1, -1, -1;
      var i := 0;
      while i < slots.Length
        invariant 0 <= i <= slots.Length && slot == -1
        invariant FirstHit(slots[..], key, 0) == FirstHit(slots[..], key, i)
        invariant empty < 0 ==> empty == -1 && FirstEmpty(slots[..], 0) == FirstEmpty(slots[..], i)
        invariant empty >= 0 ==> empty == FirstEmpty(slots[..], 0) < slots.Length
        invariant oldest == Least(slots[..], 0, i)
      {
        if slots[i].no > 0 && slots[i].key == key {
          slot := i;
          break;
        }
        if slots[i].no == 0 && empty < 0 { empty := i; }
        if slots[i].no > 0 && (oldest < 0 || slots[i].no < slots[oldest].no) { oldest := i; }
        i := i + 1;
      }
    }

    method Push(key: string, val: string)
      requires Valid()
      modifies this, slots
      ensures Valid() && View() == PushTo(old(View()), key, val)
    {
      ghost var before := slots[..];
      var slot, empty, oldest := Search(key);
      FirstHitIs(before, key, 0);
      FirstEmptyIs(before, 0);
      LeastIs(before, 0, |before|);
      if slot < 0 {
        slot := if empty >= 0 then empty else oldest;
        if slot == oldest && slots[oldest].no > 0 && slots[oldest].key != key && slots[oldest].no > evicted {
          evicted := slots[oldest].no;
        }
      }
      seqNo := seqNo + 1;
      slots[slot] := Slot(Cut(key, KEY_CAP), Cut(val, VAL_CAP), seqNo);
    }

    method Resync(cursor: nat) returns (need: bool, cursor': nat)
      requires Valid()
      ensures need == (cursor < evicted) && cursor' == Resynced(View(), cursor)
    {
      need, cursor' := cursor < evicted, cursor;
      if need { cursor' := evicted; }
    }

    method Pop(cursor: nat) returns (got: bool, e: Entry, cursor': nat)
      requires Valid()
      ensures var b := Least(slots[..], cursor, slots.Length);
              && got == (b >= 0)
              && (got ==> e == Entry(slots[b].key, slots[b].val) && cursor' == slots[b].no)
              && (!got ==> cursor' == cursor)
    {
      var best := -1;
      var i := 0;
      while i < slots.Length
        invariant 0 <= i <= slots.Length && best == Least(slots[..], cursor, i)
      {
        if slots[i].no > cursor && (best < 0 || slots[i].no < slots[best].no) { best := i; }
        i := i + 1;
      }
      got, e, cursor' := best >= 0, Entry("", ""), cursor;
      if got { e, cursor' := Entry(slots[best].key, slots[best].val), slots[best].no; }
    }

    /** A subscriber's round: resync, then pop until nothing is left. */
    method Round(cursor: nat, ghost log: seq<Entry>) returns (need: bool, got: seq<Entry>, cursor': nat)
      requires Valid() && Tracks(View(), log) && cursor <= |log|
      ensures need == (cursor < evicted) && cursor' == |log|
      ensures got == Delivered(log, Resynced(View(), cursor))
    {
      need, cursor' := Resync(cursor);
      ghost var start := cursor';
      got := [];
      var more, e := true, Entry("", "");
      while more
        invariant evicted <= start <= cursor' <= |log|
        invariant got + Delivered(log, cursor') == Delivered(log, start)
        invariant !more ==> cursor' == |log|
        decreases |log| - cursor', more
      {
        PopIsNext(View(), log, cursor');
        ghost var before := got + Delivered(log, cursor');
        more, e, cursor' := Pop(cursor');
        if more {
          assert got + ([e] + Delivered(log, cursor')) == (got + [e]) + Delivered(log, cursor');
          got := got + [e];
        }
      }
    }
  }

  // ------------------------------------------------------------------
  // The log

  /** No later push has the same key. */
  predicate Last(log: seq<Entry>, i: nat)
    requires i < |log|
  {
    forall j :: i < j < |log| ==> log[j].key != log[i].key
  }

  predicate Holds(slots: seq<Slot>, n: nat) {
    exists i :: 0 <= i < |slots| && slots[i].no == n
  }

  /** The slot holds what was pushed under its number, and that is the key's latest. */
  predicate Current(s: Slot, log: seq<Entry>) {
    s.no > 0 ==> s.no <= |log| && log[s.no - 1] == Entry(s.key, s.val) && Last(log, s.no - 1)
  }

  predicate Kept(slots: seq<Slot>, log: seq<Entry>, n: nat)
    requires n < |log|
  {
    Last(log, n) ==> Holds(slots, n + 1)
  }

  predicate Apart(slots: seq<Slot>) {
    forall i, j :: 0 <= i < j < |slots| && slots[i].no > 0 ==> slots[i].no != slots[j].no
  }

  /** The table agrees with the log: live slots hold the latest value of their keys, lie
      above the watermark, and every latest push above the watermark is there. */
  ghost predicate Tracks(t: Table, log: seq<Entry>) {
    && |t.slots| == SLOTS && t.no == |log| && t.evict <= |log| && Apart(t.slots)
    && (forall i :: 0 <= i < SLOTS ==> |t.slots[i].key| < KEY_CAP && Current(t.slots[i], log))
    && (forall i :: 0 <= i < SLOTS && t.slots[i].no > 0 ==> t.slots[i].no > t.evict)
    && (forall n :: t.evict <= n < |log| ==> Kept(t.slots, log, n))
  }

  /** Live slots hold distinct keys. */
  lemma KeysDiffer(t: Table, log: seq<Entry>, i: nat, j: nat)
    requires Tracks(t, log) && i < j < SLOTS && t.slots[i].no > 0 && t.slots[j].no > 0
    ensures t.slots[i].key != t.slots[j].key
  {
    assert Current(t.slots[i], log) && Current(t.slots[j], log);
    assert t.slots[i].no != t.slots[j].no;
  }

  lemma StartTracks()
    ensures Tracks(Start(), [])
  {}

  /** The pushes from position c on whose key was not pushed again, in push order. */
  function Delivered(log: seq<Entry>, c: nat): seq<Entry>
    decreases if c < |log| then |log| - c else 0
  {
    if c >= |log| then []
    else if Last(log, c) then [log[c]] + Delivered(log, c + 1)
    else Delivered(log, c + 1)
  }

  /** Nothing latest from c up to d. */
  predicate NoneBetween(log: seq<Entry>, c: nat, d: nat) {
    forall n :: c <= n < d && n < |log| ==> !Last(log, n)
  }

  lemma {:induction false} DeliveredSkips(log: seq<Entry>, c: nat, d: nat)
    requires c <= d <= |log| && NoneBetween(log, c, d)
    ensures Delivered(log, c) == Delivered(log, d)
    decreases d - c
  {
    if c < d {
      assert !Last(log, c);
        DeliveredSkips(log, c + 1, d);
    }
  }

  lemma DeliveredNext(log: seq<Entry>, c: nat, i: nat)
    requires c <= i < |log| && NoneBetween(log, c, i) && Last(log, i)
    ensures Delivered(log, c) == [log[i]] + Delivered(log, i + 1)
  {
    DeliveredSkips(log, c, i);
  }

  /** The next latest push. There always is one: the newest push. */
  lemma {:induction false} NextLatest(log: seq<Entry>, c: nat) returns (i: nat)
    requires c < |log|
    ensures c <= i < |log| && Last(log, i) && NoneBetween(log, c, i)
    decreases |log| - c
  {
    if Last(log, c) {
      i := c;
    } else {
      i := NextLatest(log, c + 1);
    }
  }

  /** What a pop finds is a live slot past the cursor. */
  lemma PopIsLive(t: Table, log: seq<Entry>, c: nat)
    requires Tracks(t, log)
    ensures var b := Least(t.slots, c, SLOTS);
            b >= 0 ==> c < t.slots[b].no <= |log| && Last(log, t.slots[b].no - 1)
                       && log[t.slots[b].no - 1] == Entry(t.slots[b].key, t.slots[b].val)
  {
    var b := Least(t.slots, c, SLOTS);
    LeastIs(t.slots, c, SLOTS);
    if b >= 0 { assert Current(t.slots[b], log); }
  }

  /** It is nothing newer than a held number past the cursor. */
  lemma PopIsLeast(slots: seq<Slot>, c: nat, n: nat)
    requires c < n && Holds(slots, n)
    ensures var b := Least(slots, c, |slots|); b >= 0 && slots[b].no <= n
  {
    LeastIs(slots, c, |slots|);
    var i :| 0 <= i < |slots| && slots[i].no == n;
    assert slots[i].no > c;
  }

  lemma PopIsFirst(t: Table, log: seq<Entry>, c: nat, i: nat)
    requires Tracks(t, log) && t.evict <= c <= i < |log| && Last(log, i)
    requires NoneBetween(log, c, i)
    ensures var b := Least(t.slots, c, SLOTS);
            b >= 0 && t.slots[b].no == i + 1 && log[i] == Entry(t.slots[b].key, t.slots[b].val)
  {
    assert Kept(t.slots, log, i);
    PopIsLeast(t.slots, c, i + 1);
    PopIsLive(t, log, c);
    assert !(c <= t.slots[Least(t.slots, c, SLOTS)].no - 1 < i);
  }

  lemma PopIsThere(t: Table, log: seq<Entry>, c: nat)
    requires Tracks(t, log) && t.evict <= c < |log|
    ensures var b := Least(t.slots, c, SLOTS);
            && b >= 0 && c < t.slots[b].no <= |log|
            && Delivered(log, c) == [Entry(t.slots[b].key, t.slots[b].val)] + Delivered(log, t.slots[b].no)
  {
    var i := NextLatest(log, c);
    PopIsFirst(t, log, c, i);
    DeliveredNext(log, c, i);
  }

  /** At or above the watermark, a pop finds the next latest push. */
  lemma PopIsNext(t: Table, log: seq<Entry>, c: nat)
    requires Tracks(t, log) && t.evict <= c <= |log|
    ensures var b := Least(t.slots, c, SLOTS);
            && (b >= 0 <==> c < |log|)
            && (b >= 0 ==> c < t.slots[b].no <= |log|
                           && Delivered(log, c) == [Entry(t.slots[b].key, t.slots[b].val)] + Delivered(log, t.slots[b].no))
  {
    if c < |log| {
      PopIsThere(t, log, c);
    } else {
      PopIsLive(t, log, c);
    }
  }

  // ------------------------------------------------------------------
  // Pushing

  /** An entry of the log, as the table keeps it. */
  function Recorded(key: string, val: string): Entry {
    Entry(key, Cut(val, VAL_CAP))
  }

  lemma CurrentAfter(s: Slot, log: seq<Entry>, e: Entry)
    requires Current(s, log) && (s.no > 0 ==> s.key != e.key)
    ensures Current(s, log + [e])
  {}

  lemma LastBefore(log: seq<Entry>, e: Entry, i: nat)
    requires i < |log| && Last(log + [e], i)
    ensures Last(log, i) && log[i].key != e.key
  {
    var log' := log + [e];
    assert log'[|log|] == e && log'[i] == log[i];
    forall j | i < j < |log| ensures log[j].key != log[i].key { assert log'[j] == log[j]; }
  }

  /** Nothing but the key itself is lost from above the watermark by writing slot c. */
  ghost predicate MayOverwrite(t: Table, log: seq<Entry>, c: nat, e: Entry, evict: nat) {
    && Tracks(t, log) && c < SLOTS && |e.key| < KEY_CAP && t.evict <= evict <= |log|
    && (forall i :: 0 <= i < SLOTS && i != c && t.slots[i].no > 0 ==> t.slots[i].key != e.key && t.slots[i].no > evict)
    && (t.slots[c].no > evict ==> t.slots[c].key == e.key)
  }

  lemma StillHeld(t: Table, log: seq<Entry>, c: nat, e: Entry, evict: nat, n: nat)
    requires MayOverwrite(t, log, c, e, evict) && evict <= n < |log| && Last(log + [e], n)
    ensures Holds(t.slots[c := Slot(e.key, e.val, t.no + 1)], n + 1)
  {
    LastBefore(log, e, n);
    assert Kept(t.slots, log, n);
    var i :| 0 <= i < SLOTS && t.slots[i].no == n + 1;
    assert Current(t.slots[i], log);
    assert t.slots[c := Slot(e.key, e.val, t.no + 1)][i].no == n + 1;
  }

  lemma StillCurrent(t: Table, log: seq<Entry>, c: nat, e: Entry, evict: nat, i: nat)
    requires MayOverwrite(t, log, c, e, evict) && i < SLOTS
    ensures Current(t.slots[c := Slot(e.key, e.val, t.no + 1)][i], log + [e]) && t.slots[i].no <= |log|
  {
    assert Current(t.slots[i], log);
    if i != c { CurrentAfter(t.slots[i], log, e); }
  }

  /** Writing one slot: the others keep what they hold, and only what the written one held
      can be lost. */
  lemma Overwrites(t: Table, log: seq<Entry>, c: nat, e: Entry, evict: nat)
    requires MayOverwrite(t, log, c, e, evict)
    ensures Tracks(Table(t.slots[c := Slot(e.key, e.val, t.no + 1)], t.no + 1, evict), log + [e])
  {
    var log', slots := log + [e], t.slots[c := Slot(e.key, e.val, t.no + 1)];
    forall i | 0 <= i < SLOTS ensures Current(slots[i], log') && t.slots[i].no <= |log| {
      StillCurrent(t, log, c, e, evict, i);
    }
    forall n | evict <= n < |log'| ensures Kept(slots, log', n) {
      if n == |log| {
        assert slots[c].no == n + 1;
      } else if Last(log', n) {
        StillHeld(t, log, c, e, evict, n);
      }
    }
  }

  /** The slot a push picks holds the key, or no live slot does; and if something newer than
      the watermark is lost, it is the oldest thing in a full table. */
  lemma ChosenIs(slots: seq<Slot>, key: string)
    requires slots != []
    ensures var c := Chosen(slots, key);
            || Hit(slots[c], key)
            || ((forall i :: 0 <= i < |slots| ==> !Hit(slots[i], key))
                && (slots[c].no == 0 || forall i :: 0 <= i < |slots| ==> slots[c].no <= slots[i].no))
  {
    FirstHitIs(slots, key, 0);
    FirstEmptyIs(slots, 0);
    LeastIs(slots, 0, |slots|);
  }

  lemma OthersStay(t: Table, log: seq<Entry>, key: string, val: string, i: nat)
    requires Tracks(t, log) && i < SLOTS && i != Chosen(t.slots, key) && t.slots[i].no > 0
    ensures t.slots[i].key != key && t.slots[i].no > PushTo(t, key, val).evict
  {
    var c := Chosen(t.slots, key);
    ChosenIs(t.slots, key);
    if Hit(t.slots[c], key) {
      if i < c { KeysDiffer(t, log, i, c); } else { KeysDiffer(t, log, c, i); }
    } else {
      assert !Hit(t.slots[i], key);
      assert t.slots[c].no > 0 ==> t.slots[i].no != t.slots[c].no;
    }
  }

  /** A push keeps the table in step with the log, as long as the key fits its buffer. */
  lemma PushTracks(t: Table, log: seq<Entry>, key: string, val: string)
    requires Tracks(t, log) && |key| < KEY_CAP
    ensures Tracks(PushTo(t, key, val), log + [Recorded(key, val)])
  {
    var c, t' := Chosen(t.slots, key), PushTo(t, key, val);
    assert Current(t.slots[c], log);
    forall i | 0 <= i < SLOTS && i != c && t.slots[i].no > 0
      ensures t.slots[i].key != key && t.slots[i].no > t'.evict
    {
      OthersStay(t, log, key, val, i);
    }
    Overwrites(t, log, c, Recorded(key, val), t'.evict);
  }

  // ------------------------------------------------------------------
  // Subscribers

  /** Of every key pushed from c on, the latest value is among those delivered. */
  lemma {:induction false} LatestIsDelivered(log: seq<Entry>, c: nat, j: nat) returns (i: nat)
    requires c <= j < |log|
    ensures j <= i < |log| && log[i].key == log[j].key && Last(log, i) && log[i] in Delivered(log, c)
    decreases |log| - j
  {
    if Last(log, j) {
      i := j;
      LastIsDelivered(log, c, j);
    } else {
      var k :| j < k < |log| && log[k].key == log[j].key;
      i := LatestIsDelivered(log, c, k);
    }
  }

  lemma {:induction false} LastIsDelivered(log: seq<Entry>, c: nat, i: nat)
    requires c <= i < |log| && Last(log, i)
    ensures log[i] in Delivered(log, c)
    decreases i - c
  {
    if c < i { LastIsDelivered(log, c + 1, i); }
  }

  /** Nothing else is delivered. */
  lemma {:induction false} DeliveredIsLatest(log: seq<Entry>, c: nat, k: nat) returns (i: nat)
    requires k < |Delivered(log, c)|
    ensures c <= i < |log| && Last(log, i) && log[i] == Delivered(log, c)[k]
    decreases |log| - c
  {
    if Last(log, c) && k == 0 {
      i := c;
    } else {
      i := DeliveredIsLatest(log, c + 1, if Last(log, c) then k - 1 else k);
    }
  }

  /** No key is delivered twice. */
  lemma {:induction false} DeliveredOnce(log: seq<Entry>, c: nat, k: nat, m: nat)
    requires k < m < |Delivered(log, c)|
    ensures Delivered(log, c)[k].key != Delivered(log, c)[m].key
    decreases |log| - c
  {
    if !Last(log, c) {
      DeliveredOnce(log, c + 1, k, m);
    } else if k > 0 {
      DeliveredOnce(log, c + 1, k - 1, m - 1);
    } else {
      var i := DeliveredIsLatest(log, c + 1, m - 1);
    }
  }

  datatype Op = Push(key: string, val: string) | Round

  predicate KeysFit(ops: seq<Op>) {
    forall i :: 0 <= i < |ops| && ops[i].Push? ==> |ops[i].key| < KEY_CAP
  }

  /** Everything pushed. */
  function Log(ops: seq<Op>): seq<Entry> {
    if ops == [] then []
    else
      var before := Log(ops[..|ops| - 1]);
      match ops[|ops| - 1]
      case Push(key, val) => before + [Recorded(key, val)]
      case Round => before
  }

  /** The table after the pushes. */
  function Replay(ops: seq<Op>): (t: Table)
    ensures |t.slots| == SLOTS
  {
    if ops == [] then Start()
    else
      var t := Replay(ops[..|ops| - 1]);
      match ops[|ops| - 1]
      case Push(key, val) => PushTo(t, key, val)
      case Round => t
  }

  /** Where a round stands: how much had been pushed, and the watermark. */
  datatype Mark = Mark(n: nat, evict: nat)

  function Rounds(ops: seq<Op>): seq<Mark> {
    if ops == [] then []
    else
      var before := ops[..|ops| - 1];
      if ops[|ops| - 1].Round? then Rounds(before) + [Mark(|Log(before)|, Replay(before).evict)] else Rounds(before)
  }

  /** What one round told the subscriber: whether to refetch everything, and the settings. */
  datatype Report = Report(need: bool, got: seq<Entry>)

  /** A round whose predecessor saw `from` pushes: it asks for a refetch exactly when
      something newer than that was evicted; otherwise it delivers the latest value of every
      key pushed since, in push order; and a refetch skips nothing past the watermark. */
  predicate Faithful(r: Report, log: seq<Entry>, from: nat, evict: nat) {
    r == Report(from < evict, Delivered(log, if from < evict then evict else from))
  }

  /** How much had been pushed at the round before round k. */
  function Before(at: seq<Mark>, k: nat): nat
    requires k <= |at|
  {
    if k == 0 then 0 else at[k - 1].n
  }

  predicate Served(reports: seq<Report>, at: seq<Mark>, log: seq<Entry>, k: nat)
    requires k < |reports| == |at|
  {
    Before(at, k) <= at[k].n <= |log| && Faithful(reports[k], log[..at[k].n], Before(at, k), at[k].evict)
  }

  ghost predicate AllServed(reports: seq<Report>, at: seq<Mark>, log: seq<Entry>) {
    |reports| == |at| && forall k :: 0 <= k < |reports| ==> Served(reports, at, log, k)
  }

  lemma ServedAfterPush(reports: seq<Report>, at: seq<Mark>, log: seq<Entry>, e: Entry)
    requires AllServed(reports, at, log)
    ensures AllServed(reports, at, log + [e])
  {
    forall k | 0 <= k < |at| ensures Served(reports, at, log + [e], k) {
      assert Served(reports, at, log, k);
      assert (log + [e])[..at[k].n] == log[..at[k].n];
    }
  }

  lemma ServedAfterRound(reports: seq<Report>, at: seq<Mark>, log: seq<Entry>, r: Report, evict: nat)
    requires AllServed(reports, at, log) && Before(at, |at|) <= |log|
    requires Faithful(r, log, Before(at, |at|), evict)
    ensures AllServed(reports + [r], at + [Mark(|log|, evict)], log)
  {
    var at' := at + [Mark(|log|, evict)];
    assert log[..|log|] == log;
    assert Before(at', |at|) == Before(at, |at|);
    forall k | 0 <= k < |at| ensures Served(reports + [r], at', log, k) {
      assert Served(reports, at, log, k) && Before(at', k) == Before(at, k);
    }
  }

  /** Where a session stands after some of its operations. */
  ghost predicate Serving(ops: seq<Op>, t: Table, cursor: nat, reports: seq<Report>) {
    && t == Replay(ops) && Tracks(t, Log(ops))
    && AllServed(reports, Rounds(ops), Log(ops))
    && cursor == Before(Rounds(ops), |Rounds(ops)|) <= |Log(ops)|
  }

  lemma ServingPush(ops: seq<Op>, op: Op, t: Table, cursor: nat, reports: seq<Report>)
    requires Serving(ops, t, cursor, reports) && op.Push? && |op.key| < KEY_CAP
    ensures Serving(ops + [op], PushTo(t, op.key, op.val), cursor, reports)
  {
    assert (ops + [op])[..|ops + [op]| - 1] == ops;
    PushTracks(t, Log(ops), op.key, op.val);
    ServedAfterPush(reports, Rounds(ops), Log(ops), Recorded(op.key, op.val));
  }

  lemma ServingRound(ops: seq<Op>, op: Op, t: Table, cursor: nat, reports: seq<Report>, need: bool, got: seq<Entry>)
    requires Serving(ops, t, cursor, reports) && op.Round?
    requires need == (cursor < t.evict) && got == Delivered(Log(ops), Resynced(t, cursor))
    ensures Serving(ops + [op], t, |Log(ops)|, reports + [Report(need, got)])
  {
    assert (ops + [op])[..|ops + [op]| - 1] == ops;
    ServedAfterRound(reports, Rounds(ops), Log(ops), Report(need, got), t.evict);
  }

  method ServeOne(store: Store, op: Op, ghost ops: seq<Op>, cursor: nat, reports: seq<Report>)
    returns (cursor': nat, reports': seq<Report>)
    requires store.Valid() && Serving(ops, store.View(), cursor, reports)
    requires op.Push? ==> |op.key| < KEY_CAP
    modifies store, store.slots
    ensures store.Valid() && Serving(ops + [op], store.View(), cursor', reports')
  {
    ghost var t := store.View();
    match op {
      case Push(key, val) =>
        ServingPush(ops, op, t, cursor, reports);
        store.Push(key, val);
        cursor', reports' := cursor, reports;
      case Round =>
        var need, got, next := store.Round(cursor, Log(ops));
        ServingRound(ops, op, t, cursor, reports, need, got);
        cursor', reports' := next, reports + [Report(need, got)];
    }
  }

  lemma ServingStart()
    ensures Serving([], Start(), 0, [])
  {
    StartTracks();
  }

  /** One store, one subscriber, any mix of pushes and rounds. */
  method Serve(ops: seq<Op>) returns (reports: seq<Report>)
    requires KeysFit(ops)
    ensures AllServed(reports, Rounds(ops), Log(ops))
  {
    var store := new Store();
    var cursor: nat := 0;
    reports := [];
    ServingStart();
    var i := 0;
    while i < |ops|
      invariant 0 <= i <= |ops| && fresh(store) && fresh(store.slots) && store.Valid()
      invariant Serving(ops[..i], store.View(), cursor, reports)
    {
      assert ops[..i] + [ops[i]] == ops[..i + 1];
      cursor, reports := ServeOne(store, ops[i], ops[..i], cursor, reports);
      i := i + 1;
    }
    assert ops[..i] == ops;
  }

  /** The watermark moves only when every slot holds another key: to the oldest of them. */
  lemma EvictsOnlyWhenFull(t: Table, log: seq<Entry>, key: string, val: string)
    requires Tracks(t, log)
    ensures var t' := PushTo(t, key, val);
            t'.evict != t.evict <==> forall i :: 0 <= i < SLOTS ==> t.slots[i].no > 0 && t.slots[i].key != key
    ensures var t' := PushTo(t, key, val);
            t'.evict != t.evict ==> forall i :: 0 <= i < SLOTS ==> t'.evict <= t.slots[i].no
  {
    FirstHitIs(t.slots, key, 0);
    FirstEmptyIs(t.slots, 0);
    LeastIs(t.slots, 0, SLOTS);
    var c := Chosen(t.slots, key);
    assert Hit(t.slots[c], key) || t.slots[c].no == 0 || t.slots[c].key != key;
  }

  // ------------------------------------------------------------------
  // Where the guarantee ends

  /** A key coalesces with itself exactly when it fits its buffer: pushed twice, a longer
      one takes two slots. */
  lemma RepeatCoalesces(t: Table, log: seq<Entry>, key: string, v: string, w: string)
    requires Tracks(t, log)
    ensures var u := PushTo(t, key, v);
            (Chosen(u.slots, key) == Chosen(t.slots, key)) <==> |key| < KEY_CAP
  {
    var u := PushTo(t, key, v);
    var c := Chosen(t.slots, key);
    FirstHitIs(t.slots, key, 0);
    FirstHitIs(u.slots, key, 0);
    FirstEmptyIs(u.slots, 0);
    LeastIs(u.slots, 0, SLOTS);
    var d := if c == 0 then 1 else 0;
    assert Current(t.slots[d], log) && u.slots[d] == t.slots[d] && u.slots[c].no == |log| + 1;
  }
}
