/** Where the config table's guarantee ends: a subscriber's resync and its pops are separate
    critical sections, and a push that evicts may come between them. Here the three are
    separate steps in any order, and a pop is shown to skip nothing exactly when nothing
    latest was evicted from under the cursor.
  */
module ConfigLoss {
  import opened ConfigTable

  /** A push by anyone, a resync and a pop by one subscriber. */
  datatype Act = Write(key: string, val: string) | Catch | Take

  /** The table and the log beside the subscriber's cursor, what it popped so far and how
      often it was told to refetch. */
  datatype Session = Session(t: Table, log: seq<Entry>, cursor: nat, got: seq<Entry>, told: nat)

  function Do(v: Session, a: Act): Session
    requires |v.t.slots| == SLOTS
  {
    match a
    case Write(key, val) => v.(t := PushTo(v.t, key, val), log := v.log + [Recorded(key, val)])
    case Catch => v.(cursor := Resynced(v.t, v.cursor), told := if v.cursor < v.t.evict then v.told + 1 else v.told)
    case Take =>
      var b := Least(v.t.slots, v.cursor, SLOTS);
      if b < 0 then v
      else v.(cursor := v.t.slots[b].no, got := v.got + [Entry(v.t.slots[b].key, v.t.slots[b].val)])
  }

  function After(acts: seq<Act>): (v: Session)
    ensures |v.t.slots| == SLOTS
  {
    if acts == [] then Session(ConfigTable.Start(), [], 0, [], 0)
    else Do(After(acts[..|acts| - 1]), acts[|acts| - 1])
  }

  predicate Fits(a: Act) {
    a.Write? ==> |a.key| < KEY_CAP
  }

  predicate AllFit(acts: seq<Act>)
    decreases |acts|
  {
    acts == [] || (Fits(acts[|acts| - 1]) && AllFit(acts[..|acts| - 1]))
  }

  /** The newest push is never evicted, and the cursor is not past the log. */
  ghost predicate InStep(v: Session) {
    Tracks(v.t, v.log) && v.cursor <= |v.log| && (v.t.evict == 0 || v.t.evict < |v.log|)
  }

  lemma WriteInStep(v: Session, a: Act)
    requires InStep(v) && Fits(a) && a.Write?
    ensures InStep(Do(v, a))
  {
    PushTracks(v.t, v.log, a.key, a.val);
    assert Current(v.t.slots[Chosen(v.t.slots, a.key)], v.log);
  }

  lemma ActInStep(v: Session, a: Act)
    requires InStep(v) && Fits(a)
    ensures InStep(Do(v, a))
  {
    if a.Write? {
      WriteInStep(v, a);
    } else if a.Take? {
      PopIsLive(v.t, v.log, v.cursor);
    }
  }

  lemma {:induction false} RunInStep(acts: seq<Act>)
    requires AllFit(acts)
    ensures InStep(After(acts))
    decreases |acts|
  {
    if acts == [] {
      StartTracks();
    } else {
      RunInStep(acts[..|acts| - 1]);
      ActInStep(After(acts[..|acts| - 1]), acts[|acts| - 1]);
    }
  }

  /** The latest value of some key lies past the cursor and was evicted. */
  predicate Overtaken(v: Session) {
    !NoneBetween(v.log, v.cursor, v.t.evict)
  }

  /** What a pop does here is hand over the first of what is due, if anything is. */
  predicate TakesNext(v: Session)
    requires |v.t.slots| == SLOTS
  {
    var w := Do(v, Take);
    && |v.got| <= |w.got|
    && Delivered(v.log, v.cursor) == w.got[|v.got|..] + Delivered(v.log, w.cursor)
  }

  lemma {:induction false} DeliveredShrinks(log: seq<Entry>, c: nat, d: nat)
    requires c <= d <= |log|
    ensures |Delivered(log, c)| >= |Delivered(log, d)|
    ensures !NoneBetween(log, c, d) ==> |Delivered(log, c)| > |Delivered(log, d)|
    decreases d - c
  {
    if c < d { DeliveredShrinks(log, c + 1, d); }
  }

  /** Whatever the cursor, from below the watermark a pop takes the slot that it takes from
      the watermark itself. */
  lemma BelowIsSame(t: Table, log: seq<Entry>, c: nat, n: nat)
    requires Tracks(t, log) && c < t.evict && n <= SLOTS
    ensures Least(t.slots, c, n) == Least(t.slots, t.evict, n)
  {
    if n > 0 {
      BelowIsSame(t, log, c, n - 1);
      assert t.slots[n - 1].no > 0 ==> t.slots[n - 1].no > t.evict;
    }
  }

  lemma TakeShape(v: Session, b: nat)
    requires |v.t.slots| == SLOTS && b == Least(v.t.slots, v.cursor, SLOTS)
    ensures var e := Entry(v.t.slots[b].key, v.t.slots[b].val);
            TakesNext(v) <==> Delivered(v.log, v.cursor) == [e] + Delivered(v.log, v.t.slots[b].no)
  {
    var e := Entry(v.t.slots[b].key, v.t.slots[b].val);
    assert (v.got + [e])[|v.got|..] == [e];
  }

  lemma NothingShape(v: Session)
    requires |v.t.slots| == SLOTS && Least(v.t.slots, v.cursor, SLOTS) < 0
    ensures TakesNext(v)
  {
    assert v.got[|v.got|..] == [];
  }

  lemma TakeAbove(v: Session)
    requires InStep(v) && v.t.evict <= v.cursor
    ensures TakesNext(v)
  {
    PopIsNext(v.t, v.log, v.cursor);
    var b := Least(v.t.slots, v.cursor, SLOTS);
    if b < 0 { NothingShape(v); } else { TakeShape(v, b); }
  }

  lemma TakeBelow(v: Session)
    requires InStep(v) && v.cursor < v.t.evict
    ensures TakesNext(v) <==> !Overtaken(v)
  {
    BelowIsSame(v.t, v.log, v.cursor, SLOTS);
    PopIsThere(v.t, v.log, v.t.evict);
    var b := Least(v.t.slots, v.cursor, SLOTS);
    TakeShape(v, b);
    if Overtaken(v) {
      DeliveredShrinks(v.log, v.cursor, v.t.evict);
    } else {
      DeliveredSkips(v.log, v.cursor, v.t.evict);
    }
  }

  /** A pop skips nothing if and only if no latest value past the cursor was evicted. */
  lemma TakeIsLossless(v: Session)
    requires InStep(v)
    ensures TakesNext(v) <==> !Overtaken(v)
  {
    if v.cursor < v.t.evict {
      TakeBelow(v);
    } else {
      TakeAbove(v);
    }
  }

  /** A pop that does skip something carries the cursor past the watermark, so a resync that
      follows has nothing to report. */
  lemma PopStepsOverLoss(v: Session)
    requires InStep(v) && Overtaken(v)
    ensures var w := Do(v, Take);
            && w.cursor > w.t.evict > v.cursor && |w.got| == |v.got| + 1
            && Do(w, Catch) == w
  {
    BelowIsSame(v.t, v.log, v.cursor, SLOTS);
    PopIsThere(v.t, v.log, v.t.evict);
  }

  /** Every pop of the session hands over the next thing due. */
  predicate NothingSkipped(acts: seq<Act>)
    decreases |acts|
  {
    acts == []
    || (NothingSkipped(acts[..|acts| - 1])
        && (acts[|acts| - 1].Take? ==> TakesNext(After(acts[..|acts| - 1]))))
  }

  /** Some pop of the session is made after a latest value past its cursor was evicted. */
  predicate SomeOvertaken(acts: seq<Act>)
    decreases |acts|
  {
    acts != []
    && (SomeOvertaken(acts[..|acts| - 1])
        || (acts[|acts| - 1].Take? && Overtaken(After(acts[..|acts| - 1]))))
  }

  /** In every interleaving of pushes, resyncs and pops, nothing is skipped if and only if
      no pop finds itself overtaken. */
  lemma {:induction false} RunIsLossless(acts: seq<Act>)
    requires AllFit(acts)
    ensures NothingSkipped(acts) <==> !SomeOvertaken(acts)
    decreases |acts|
  {
    if acts != [] {
      RunIsLossless(acts[..|acts| - 1]);
      RunInStep(acts[..|acts| - 1]);
      TakeIsLossless(After(acts[..|acts| - 1]));
    }
  }

  // ------------------------------------------------------------------
  // A session in which it happens: a resync, one push more than there are slots, each of
  // another key, then a pop and another resync.

  function Name(i: nat): string
    requires i <= SLOTS
  {
    [(65 + i) as char]
  }

  function Writes(n: nat): seq<Act>
    requires n <= SLOTS + 1
  {
    if n == 0 then [Catch] else Writes(n - 1) + [Write(Name(n - 1), "")]
  }

  function Lossy(): seq<Act> {
    Writes(SLOTS + 1) + [Take] + [Catch]
  }

  lemma AfterLast(acts: seq<Act>, a: Act)
    ensures After(acts + [a]) == Do(After(acts), a)
    ensures AllFit(acts + [a]) <==> AllFit(acts) && Fits(a)
    ensures SomeOvertaken(acts + [a]) <==> SomeOvertaken(acts) || (a.Take? && Overtaken(After(acts)))
  {
    assert (acts + [a])[..|acts + [a]| - 1] == acts;
  }

  /** The first n slots hold the first n keys, and nothing else happened. */
  predicate Filled(v: Session, n: nat) {
    && n <= SLOTS == |v.t.slots| && v.t.no == n == |v.log| && v.t.evict == 0
    && v.cursor == 0 && v.got == [] && v.told == 0
    && (forall i :: 0 <= i < SLOTS ==> v.t.slots[i] == if i < n then Slot(Name(i), "", i + 1) else Slot("", "", 0))
    && (forall i :: 0 <= i < n ==> v.log[i] == Entry(Name(i), ""))
  }

  lemma FillOne(v: Session, n: nat)
    requires Filled(v, n) && n < SLOTS
    ensures Filled(Do(v, Write(Name(n), "")), n + 1)
  {
    FirstHitIs(v.t.slots, Name(n), 0);
    FirstEmptyIs(v.t.slots, 0);
    assert FirstHit(v.t.slots, Name(n), 0) == SLOTS;
    assert v.t.slots[n].no == 0;
    assert FirstEmpty(v.t.slots, 0) == n;
  }

  lemma FillNone()
    ensures Filled(Do(Session(ConfigTable.Start(), [], 0, [], 0), Catch), 0)
  {}

  lemma FillFirst(acts: seq<Act>)
    requires acts == [Catch]
    ensures Filled(After(acts), 0) && AllFit(acts)
  {
    FillNone();
    assert [] + [Catch] == acts;
    AfterLast([], Catch);
  }

  lemma FillNext(acts: seq<Act>, n: nat)
    requires n < SLOTS && Filled(After(acts), n) && AllFit(acts)
    ensures var a := Write(Name(n), ""); Filled(After(acts + [a]), n + 1) && AllFit(acts + [a])
  {
    AfterLast(acts, Write(Name(n), ""));
    FillOne(After(acts), n);
  }

  lemma {:induction false} Fills(n: nat)
    requires n <= SLOTS
    ensures Filled(After(Writes(n)), n) && AllFit(Writes(n))
  {
    if n == 0 {
      FillFirst(Writes(0));
    } else {
      Fills(n - 1);
      FillNext(Writes(n - 1), n - 1);
    }
  }

  /** The push too many takes the first slot and evicts the first key. */
  predicate Spilled(v: Session) {
    && |v.t.slots| == SLOTS && v.t.evict == 1 && v.cursor == 0 && v.got == [] && v.told == 0
    && |v.log| == SLOTS + 1
    && v.t.slots[0].no == SLOTS + 1
    && (forall i :: 0 < i < SLOTS ==> v.t.slots[i] == Slot(Name(i), "", i + 1))
    && (forall i :: 0 <= i <= SLOTS ==> v.log[i] == Entry(Name(i), ""))
  }

  lemma Spills(v: Session)
    requires Filled(v, SLOTS)
    ensures Spilled(Do(v, Write(Name(SLOTS), "")))
  {
    FirstHitIs(v.t.slots, Name(SLOTS), 0);
    FirstEmptyIs(v.t.slots, 0);
    LeastIs(v.t.slots, 0, SLOTS);
    assert FirstHit(v.t.slots, Name(SLOTS), 0) == SLOTS;
    assert v.t.slots[0].no == 1;
    assert Least(v.t.slots, 0, SLOTS) == 0;
  }

  lemma SpilledTakes(v: Session)
    requires Spilled(v)
    ensures Overtaken(v) && Last(v.log, 0)
    ensures Do(v, Take) == v.(cursor := 2, got := [Entry(Name(1), "")])
  {
    LeastIs(v.t.slots, 0, SLOTS);
    assert v.t.slots[1].no == 2;
    assert Least(v.t.slots, 0, SLOTS) == 1;
    forall j | 0 < j < |v.log| ensures v.log[j].key != v.log[0].key {
      assert v.log[j] == Entry(Name(j), "");
    }
    assert Last(v.log, 0);
  }

  /** The subscriber is never told to refetch and never gets the first key, whose value is
      still the latest one: what is left for it to pop starts at the third. */
  lemma LossyRun()
    ensures AllFit(Lossy()) && SomeOvertaken(Lossy()) && !NothingSkipped(Lossy())
    ensures var v := After(Lossy());
            && v.told == 0 && v.got == [Entry(Name(1), "")] && v.cursor == 2
            && |v.log| == SLOTS + 1 && v.log[0] == Entry(Name(0), "") && Last(v.log, 0)
  {
    var full, acts := Writes(SLOTS), Writes(SLOTS + 1);
    Fills(SLOTS);
    AfterLast(full, Write(Name(SLOTS), ""));
    Spills(After(full));
    SpilledTakes(After(acts));
    AfterLast(acts, Take);
    AfterLast(acts + [Take], Catch);
    RunIsLossless(Lossy());
  }
}
