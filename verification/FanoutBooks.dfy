/** Reference conservation for src/hub.c, src/fanqueue.c and src/frame.c: a packet's count
    is the number of queue slots, producer handles and consumer handles that hold it.
  */
module FanoutBooks {
  import FQ = FanQueue
  import opened Fanout
  import opened FanoutHandshake

  function Tally<T>(xs: seq<T>, f: T -> nat): nat
    decreases |xs|
  {
    if xs == [] then 0 else Tally(xs[..|xs| - 1], f) + f(xs[|xs| - 1])
  }

  lemma {:induction false} TallyUpdate<T>(xs: seq<T>, i: nat, x: T, f: T -> nat)
    requires i < |xs|
    ensures Tally(xs[i := x], f) == Tally(xs, f) - f(xs[i]) + f(x)
    decreases |xs|
  {
    var ys := xs[i := x];
    if i == |xs| - 1 {
      assert ys[..|ys| - 1] == xs[..|xs| - 1];
    } else {
      assert ys[..|ys| - 1] == xs[..|xs| - 1][i := x];
      TallyUpdate(xs[..|xs| - 1], i, x, f);
    }
  }

  lemma TallyAppend<T>(xs: seq<T>, x: T, f: T -> nat)
    ensures Tally(xs + [x], f) == Tally(xs, f) + f(x)
  {
    assert (xs + [x])[..|xs|] == xs;
  }

  lemma {:induction false} TallyAtLeast<T>(xs: seq<T>, i: nat, f: T -> nat)
    requires i < |xs|
    ensures f(xs[i]) <= Tally(xs, f)
    decreases |xs|
  {
    if i < |xs| - 1 { TallyAtLeast(xs[..|xs| - 1], i, f); }
  }

  lemma {:induction false} TallyZero<T>(xs: seq<T>, f: T -> nat)
    requires forall i :: 0 <= i < |xs| ==> f(xs[i]) == 0
    ensures Tally(xs, f) == 0
    decreases |xs|
  {
    if xs != [] { TallyZero(xs[..|xs| - 1], f); }
  }

  function Occurs(held: seq<FQ.Packet>, p: nat): nat {
    if held == [] then 0 else (if held[0].id == p then 1 else 0) + Occurs(held[1..], p)
  }

  lemma {:induction false} OccursConcat(a: seq<FQ.Packet>, b: seq<FQ.Packet>, p: nat)
    ensures Occurs(a + b, p) == Occurs(a, p) + Occurs(b, p)
  {
    if a == [] {
      assert a + b == b;
    } else {
      assert (a + b)[1..] == a[1..] + b;
      OccursConcat(a[1..], b, p);
    }
  }

  lemma {:induction false} OccursAt(held: seq<FQ.Packet>, j: nat)
    requires j < |held|
    ensures Occurs(held, held[j].id) >= 1
  {
    if j > 0 { OccursAt(held[1..], j - 1); }
  }

  lemma {:induction false} OccursNever(held: seq<FQ.Packet>, p: nat)
    requires forall j :: 0 <= j < |held| ==> held[j].id != p
    ensures Occurs(held, p) == 0
  {
    if held != [] { OccursNever(held[1..], p); }
  }

  /** How many slots of a queue hold the packet. */
  function Slots(p: nat): Buffer -> nat {
    (b: Buffer) => Occurs(b.q.held, p)
  }

  /** How many references to the packet a producer holds. */
  function Handles(p: nat): Work -> nat {
    (w: Work) => match w
      case Built(x) => if x == p then 1 else 0
      case Fanning(x, _, _, reffed) => if x != p then 0 else if reffed then 2 else 1
      case _ => 0
  }

  predicate Counted(pkts: seq<Pkt>, bufs: seq<Buffer>, work: seq<Work>, hands: multiset<nat>, p: nat) {
    p < |pkts| && pkts[p].ref == Tally(bufs, Slots(p)) + Tally(work, Handles(p)) + hands[p]
  }

  predicate Sound(k: Pkt, p: nat) {
    0 <= k.ref && (k.life == Live <==> 0 < k.ref) && k.tag.id == p
  }

  /** A queued packet is still what it was when it was pushed. */
  predicate Entry(pkts: seq<Pkt>, e: FQ.Packet) {
    e.id < |pkts| && pkts[e.id].tag == e
  }

  predicate Entries(pkts: seq<Pkt>, held: seq<FQ.Packet>) {
    forall j :: 0 <= j < |held| ==> Entry(pkts, held[j])
  }

  predicate Holding(pkts: seq<Pkt>, w: Work) {
    && (w.Built? ==> w.p < |pkts| && pkts[w.p].ref == 1)
    && (w.Fanning? ==> w.p < |pkts|)
  }

  /** Every reference is accounted for. */
  predicate Conserved(pkts: seq<Pkt>, bufs: seq<Buffer>, work: seq<Work>, hands: multiset<nat>) {
    && (forall p :: 0 <= p < |pkts| ==> Counted(pkts, bufs, work, hands, p))
    && (forall p :: 0 <= p < |pkts| ==> Sound(pkts[p], p))
    && (forall p :: p in hands ==> p < |pkts|)
    && (forall b :: 0 <= b < |bufs| ==> Entries(pkts, bufs[b].q.held))
    && (forall s :: 0 <= s < |work| ==> Holding(pkts, work[s]))
  }

  // ------------------------------------------------------------------
  // Who holds what

  /** A packet in someone's hands, in a slot or with a producer is live. */
  lemma HeldIsLive(st: State, p: nat)
    requires Conserved(st.pkts, st.bufs, st.work, st.hands) && p < |st.pkts|
    requires st.hands[p] > 0 || Tally(st.bufs, Slots(p)) > 0 || Tally(st.work, Handles(p)) > 0
    ensures IsLive(st.pkts, p)
  {
    assert Counted(st.pkts, st.bufs, st.work, st.hands, p) && Sound(st.pkts[p], p);
  }

  /** A packet still being built is referenced by its producer alone. */
  lemma BuiltIsSole(st: State, s: nat, p: nat)
    requires Conserved(st.pkts, st.bufs, st.work, st.hands) && s < |st.work| && st.work[s] == Built(p)
    ensures p < |st.pkts| && st.hands[p] == 0
    ensures forall b :: 0 <= b < |st.bufs| ==> Slots(p)(st.bufs[b]) == 0
    ensures forall t :: 0 <= t < |st.work| && t != s ==> Handles(p)(st.work[t]) == 0
  {
    assert Holding(st.pkts, st.work[s]) && Counted(st.pkts, st.bufs, st.work, st.hands, p);
    TallyUpdate(st.work, s, Rest, Handles(p));
    assert Tally(st.bufs, Slots(p)) == 0 && Tally(st.work[s := Rest], Handles(p)) == 0;
    forall b | 0 <= b < |st.bufs| ensures Slots(p)(st.bufs[b]) == 0 {
      TallyAtLeast(st.bufs, b, Slots(p));
    }
    forall t | 0 <= t < |st.work| && t != s ensures Handles(p)(st.work[t]) == 0 {
      TallyAtLeast(st.work[s := Rest], t, Handles(p));
      assert st.work[s := Rest][t] == st.work[t];
    }
  }

  /** n references fewer. */
  predicate Lowered(a: Pkt, b: Pkt, n: nat) {
    && b.ref == a.ref - n && b.tag == a.tag && b.cap == a.cap && b.home == a.home
    && (b.life == a.life || (a.life == Live && b.life == Dying))
  }

  /** Giving up references one at a time: each packet dies when its last one goes, once. */
  lemma {:induction false} UnrefAllIs(pkts: seq<Pkt>, gone: seq<FQ.Packet>)
    requires forall j :: 0 <= j < |gone| ==> gone[j].id < |pkts|
    requires forall x :: 0 <= x < |pkts| ==> Sound(pkts[x], x) && Occurs(gone, x) <= pkts[x].ref
    ensures CanUnref(pkts, gone) && |UnrefAll(pkts, gone)| == |pkts|
    ensures forall x :: 0 <= x < |pkts| ==>
              Sound(UnrefAll(pkts, gone)[x], x) && Lowered(pkts[x], UnrefAll(pkts, gone)[x], Occurs(gone, x))
    decreases |gone|
  {
    if gone != [] {
      var p, rest := gone[0].id, gone[1..];
      assert Occurs(gone, p) == 1 + Occurs(rest, p);
      var once := Unref(pkts, p);
      forall x | 0 <= x < |once| ensures Sound(once[x], x) && Occurs(rest, x) <= once[x].ref {
        assert Sound(pkts[x], x) && Occurs(gone, x) <= pkts[x].ref;
      }
      UnrefAllIs(once, rest);
    }
  }

  lemma EntriesKept(pkts: seq<Pkt>, pkts': seq<Pkt>, held: seq<FQ.Packet>)
    requires Entries(pkts, held) && |pkts| <= |pkts'|
    requires forall x :: 0 <= x < |pkts| ==> pkts'[x].tag == pkts[x].tag
    ensures Entries(pkts', held)
  {
    forall j | 0 <= j < |held| ensures Entry(pkts', held[j]) { assert Entry(pkts, held[j]); }
  }

  // ------------------------------------------------------------------
  // Steps

  predicate Booked(st: State) {
    Conserved(st.pkts, st.bufs, st.work, st.hands)
  }

  predicate CountedIn(st: State, p: nat) {
    Counted(st.pkts, st.bufs, st.work, st.hands, p)
  }

  lemma Rebooked(t: State)
    requires forall x :: 0 <= x < |t.pkts| ==> CountedIn(t, x) && Sound(t.pkts[x], x)
    requires forall x :: x in t.hands ==> x < |t.pkts|
    requires forall b :: 0 <= b < |t.bufs| ==> Entries(t.pkts, t.bufs[b].q.held)
    requires forall s :: 0 <= s < |t.work| ==> Holding(t.pkts, t.work[s])
    ensures Booked(t)
  {
    forall x | 0 <= x < |t.pkts| ensures Counted(t.pkts, t.bufs, t.work, t.hands, x) {
      assert CountedIn(t, x);
    }
  }

  lemma AllEntriesKept(st: State, pkts': seq<Pkt>)
    requires Booked(st) && |st.pkts| <= |pkts'|
    requires forall x :: 0 <= x < |st.pkts| ==> pkts'[x].tag == st.pkts[x].tag
    ensures forall b :: 0 <= b < |st.bufs| ==> Entries(pkts', st.bufs[b].q.held)
  {
    forall b | 0 <= b < |st.bufs| ensures Entries(pkts', st.bufs[b].q.held) {
      EntriesKept(st.pkts, pkts', st.bufs[b].q.held);
    }
  }

  lemma OpenBooks(st: State, cap: nat)
    requires Booked(st)
    ensures Booked(Open(st, cap))
  {
    var t := Open(st, cap);
    forall x | 0 <= x < |t.pkts| ensures CountedIn(t, x) && Sound(t.pkts[x], x) {
      assert Counted(st.pkts, st.bufs, st.work, st.hands, x) && Sound(st.pkts[x], x);
      TallyAppend(st.bufs, Buffer(FQ.EMPTY, cap), Slots(x));
    }
    Rebooked(t);
  }

  lemma CloseBooks(st: State, q: nat)
    requires Booked(st) && q < |st.bufs|
    ensures Booked(Close(st, q))
  {
    var t := Close(st, q);
    forall x | 0 <= x < |t.pkts| ensures CountedIn(t, x) && Sound(t.pkts[x], x) {
      assert Counted(st.pkts, st.bufs, st.work, st.hands, x) && Sound(st.pkts[x], x);
      TallyUpdate(st.bufs, q, t.bufs[q], Slots(x));
    }
    Rebooked(t);
  }

  lemma PopBooks(st: State, q: nat, status: bool)
    requires Booked(st) && q < |st.bufs| && st.bufs[q].q.held != []
    ensures Booked(Pop(st, q, status)) && IsLive(st.pkts, st.bufs[q].q.held[0].id)
  {
    var t, held := Pop(st, q, status), st.bufs[q].q.held;
    assert Entries(st.pkts, held) && Entry(st.pkts, held[0]);
    TallyAtLeast(st.bufs, q, Slots(held[0].id));
    HeldIsLive(st, held[0].id);
    assert t.bufs[q].q.held == held[1..];
    forall x | 0 <= x < |t.pkts| ensures CountedIn(t, x) && Sound(t.pkts[x], x) {
      assert Counted(st.pkts, st.bufs, st.work, st.hands, x) && Sound(st.pkts[x], x);
      TallyUpdate(st.bufs, q, t.bufs[q], Slots(x));
    }
    forall j | 0 <= j < |held| - 1 ensures Entry(st.pkts, held[1..][j]) { assert Entry(st.pkts, held[j + 1]); }
    Rebooked(t);
  }

  /** The consumer takes or gives up one reference of its own. */
  lemma HandBooks(st: State, p: nat, t: State)
    requires Booked(st) && st.hands[p] > 0
    requires p < |st.pkts| ==> t == Share(st, p) || t == Drop(st, p)
    ensures IsLive(st.pkts, p) && Booked(t)
  {
    assert p in st.hands;
    HeldIsLive(st, p);
    AllEntriesKept(st, t.pkts);
    forall x | 0 <= x < |t.pkts| ensures CountedIn(t, x) && Sound(t.pkts[x], x) {
      assert Counted(st.pkts, st.bufs, st.work, st.hands, x) && Sound(st.pkts[x], x);
    }
    forall s | 0 <= s < |t.work| ensures Holding(t.pkts, t.work[s]) {
      assert Holding(st.pkts, st.work[s]);
      if st.work[s].Built? { BuiltIsSole(st, s, st.work[s].p); }
    }
    Rebooked(t);
  }

  /** Giving up everything a queue holds, or a front of it, or nothing. */
  lemma SurrenderIs(st: State, q: nat, n: nat)
    requires Booked(st) && q < |st.bufs| && n <= |st.bufs[q].q.held|
    ensures var gone := st.bufs[q].q.held[..n];
            && CanUnref(st.pkts, gone) && |UnrefAll(st.pkts, gone)| == |st.pkts|
            && (forall x :: 0 <= x < |st.pkts| ==>
                  && Sound(UnrefAll(st.pkts, gone)[x], x)
                  && Lowered(st.pkts[x], UnrefAll(st.pkts, gone)[x], Occurs(gone, x)))
            && (forall x: nat :: Occurs(gone, x) + Occurs(st.bufs[q].q.held[n..], x) == Occurs(st.bufs[q].q.held, x))
  {
    var held := st.bufs[q].q.held;
    var gone := held[..n];
    assert Entries(st.pkts, held);
    forall j | 0 <= j < n ensures gone[j].id < |st.pkts| { assert Entry(st.pkts, held[j]); }
    assert held == gone + held[n..];
    forall x: nat ensures Occurs(gone, x) + Occurs(held[n..], x) == Occurs(held, x) {
      OccursConcat(gone, held[n..], x);
    }
    forall x | 0 <= x < |st.pkts| ensures Sound(st.pkts[x], x) && Occurs(gone, x) <= st.pkts[x].ref {
      assert Counted(st.pkts, st.bufs, st.work, st.hands, x);
      TallyAtLeast(st.bufs, q, Slots(x));
      assert Slots(x)(st.bufs[q]) == Occurs(held, x) == Occurs(gone, x) + Occurs(held[n..], x);
    }
    UnrefAllIs(st.pkts, gone);
  }

  lemma FreeBooks(st: State, q: nat)
    requires Booked(st) && q < |st.bufs| && q < |st.clients|
    ensures CanUnref(st.pkts, st.bufs[q].q.held) && Booked(Free(st, q))
  {
    var held := st.bufs[q].q.held;
    SurrenderIs(st, q, |held|);
    assert held[..|held|] == held && held[|held|..] == [];
    var t := Free(st, q);
    AllEntriesKept(st, t.pkts);
    forall x | 0 <= x < |t.pkts| ensures CountedIn(t, x) && Sound(t.pkts[x], x) {
      assert Counted(st.pkts, st.bufs, st.work, st.hands, x) && Lowered(st.pkts[x], t.pkts[x], Occurs(held, x));
      TallyUpdate(st.bufs, q, t.bufs[q], Slots(x));
    }
    forall s | 0 <= s < |t.work| ensures Holding(t.pkts, t.work[s]) {
      assert Holding(st.pkts, st.work[s]);
      if st.work[s].Built? {
        BuiltIsSole(st, s, st.work[s].p);
        assert Slots(st.work[s].p)(st.bufs[q]) == 0;
      }
    }
    Rebooked(t);
  }

  /** A packet that no slot holds may change its tag. */
  lemma EntriesElsewhere(st: State, pkts': seq<Pkt>, p: nat)
    requires Booked(st) && Tally(st.bufs, Slots(p)) == 0 && |st.pkts| <= |pkts'|
    requires forall x :: 0 <= x < |st.pkts| && x != p ==> pkts'[x].tag == st.pkts[x].tag
    ensures forall b :: 0 <= b < |st.bufs| ==> Entries(pkts', st.bufs[b].q.held)
  {
    forall b | 0 <= b < |st.bufs| ensures Entries(pkts', st.bufs[b].q.held) {
      var held := st.bufs[b].q.held;
      TallyAtLeast(st.bufs, b, Slots(p));
      assert Slots(p)(st.bufs[b]) == Occurs(held, p);
      forall j | 0 <= j < |held| ensures Entry(pkts', held[j]) {
        assert Entry(st.pkts, held[j]);
        OccursAt(held, j);
      }
    }
  }

  /** Nobody holds a packet that does not exist yet. */
  lemma NextIsUnheld(st: State)
    requires Booked(st)
    ensures var p := |st.pkts|;
            Tally(st.bufs, Slots(p)) == 0 && Tally(st.work, Handles(p)) == 0 && st.hands[p] == 0
  {
    var p := |st.pkts|;
    forall b | 0 <= b < |st.bufs| ensures Slots(p)(st.bufs[b]) == 0 {
      var held := st.bufs[b].q.held;
      forall j | 0 <= j < |held| ensures held[j].id != p { assert Entry(st.pkts, held[j]); }
      OccursNever(held, p);
    }
    TallyZero(st.bufs, Slots(p));
    forall s | 0 <= s < |st.work| ensures Handles(p)(st.work[s]) == 0 { assert Holding(st.pkts, st.work[s]); }
    TallyZero(st.work, Handles(p));
    assert p !in st.hands;
  }

  /** A packet nobody holds comes into its producer's hands with a count of one. */
  lemma BornBooks(st: State, s: nat, p: nat, t: State)
    requires Booked(st) && s < |st.work| && Handles(p)(st.work[s]) == 0
    requires Tally(st.bufs, Slots(p)) == 0 && Tally(st.work, Handles(p)) == 0 && st.hands[p] == 0
    requires p < |t.pkts| && t.pkts[p].ref == 1 && Sound(t.pkts[p], p)
    requires p <= |st.pkts| && |t.pkts| == (if p < |st.pkts| then |st.pkts| else p + 1)
    requires forall x :: 0 <= x < |st.pkts| && x != p ==> t.pkts[x] == st.pkts[x]
    requires t.bufs == st.bufs && t.hands == st.hands && |t.work| == |st.work| && t.work == st.work[s := t.work[s]]
    requires Handles(p)(t.work[s]) == 1 && (t.work[s].Built? || t.work[s].Fanning?)
    requires st.work[s].Rest? || st.work[s].Snapped?
    ensures Booked(t)
  {
    EntriesElsewhere(st, t.pkts, p);
    forall x | 0 <= x < |t.pkts| ensures CountedIn(t, x) && Sound(t.pkts[x], x) {
      if x != p { assert Counted(st.pkts, st.bufs, st.work, st.hands, x) && Sound(st.pkts[x], x); }
      TallyUpdate(st.work, s, t.work[s], Handles(x));
    }
    forall u | 0 <= u < |t.work| ensures Holding(t.pkts, t.work[u]) {
      if u != s {
        assert t.work[u] == st.work[u] && Holding(st.pkts, st.work[u]);
        TallyAtLeast(st.work, u, Handles(p));
      }
    }
    Rebooked(t);
  }

  lemma GetBooks(st: State, s: nat, cap: nat, oom: bool)
    requires Booked(st) && Enabled(st, DoGet(s, cap, oom)) && Safe(st, DoGet(s, cap, oom))
    ensures Booked(Get(st, s, cap, oom))
  {
    var t := Get(st, s, cap, oom);
    match Picked(st.pools[s], Wanted(cap))
    case None =>
      NextIsUnheld(st);
      if !oom { BornBooks(st, s, |st.pkts|, t); }
    case Some(p) =>
      assert Counted(st.pkts, st.bufs, st.work, st.hands, p) && Sound(st.pkts[p], p);
      if t.pkts[p].life == Gone {
        LifeBooks(st, p, Gone, t);
      } else {
        BornBooks(st, s, p, t);
      }
  }

  /** Disposing of a packet nobody holds. */
  lemma LifeBooks(st: State, p: nat, life: Life, t: State)
    requires Booked(st) && p < |st.pkts| && st.pkts[p].life != Live && life != Live
    requires t.pkts == st.pkts[p := st.pkts[p].(life := life)]
    requires t.bufs == st.bufs && t.work == st.work && t.hands == st.hands
    ensures Booked(t)
  {
    AllEntriesKept(st, t.pkts);
    forall x | 0 <= x < |t.pkts| ensures CountedIn(t, x) && Sound(t.pkts[x], x) {
      assert Counted(st.pkts, st.bufs, st.work, st.hands, x) && Sound(st.pkts[x], x);
    }
    forall u | 0 <= u < |t.work| ensures Holding(t.pkts, t.work[u]) { assert Holding(st.pkts, st.work[u]); }
    Rebooked(t);
  }

  /** The producer writes what only it can see. */
  lemma WriteBooks(st: State, s: nat, p: nat, t: State)
    requires Booked(st) && s < |st.work| && st.work[s] == Built(p) && p < |st.pkts|
    requires |t.pkts| == |st.pkts|
    requires t.pkts == st.pkts[p := st.pkts[p].(tag := t.pkts[p].tag)] && t.pkts[p].tag.id == p
    requires t.bufs == st.bufs && t.hands == st.hands
    requires t.work == st.work || exists snap :: t.work == st.work[s := Fanning(p, snap, 0, false)]
    ensures Booked(t) && IsLive(st.pkts, p)
  {
    BuiltIsSole(st, s, p);
    TallyAtLeast(st.work, s, Handles(p));
    HeldIsLive(st, p);
    TallyZero(st.bufs, Slots(p));
    EntriesElsewhere(st, t.pkts, p);
    assert Handles(p)(t.work[s]) == 1;
    forall x | 0 <= x < |t.pkts| ensures CountedIn(t, x) && Sound(t.pkts[x], x) {
      assert Counted(st.pkts, st.bufs, st.work, st.hands, x) && Sound(st.pkts[x], x);
      TallyUpdate(st.work, s, t.work[s], Handles(x));
    }
    forall u | 0 <= u < |t.work| ensures Holding(t.pkts, t.work[u]) { assert Holding(st.pkts, st.work[u]); }
    Rebooked(t);
  }

  /** A producer that holds no packet moves on. */
  lemma IdleBooks(st: State, s: nat, t: State)
    requires Booked(st) && s < |st.work| == |t.work| && t.work == st.work[s := t.work[s]]
    requires !st.work[s].Built? && !st.work[s].Fanning? && !t.work[s].Built? && !t.work[s].Fanning?
    requires t.pkts == st.pkts && t.bufs == st.bufs && t.hands == st.hands
    ensures Booked(t)
  {
    forall x | 0 <= x < |t.pkts| ensures CountedIn(t, x) && Sound(t.pkts[x], x) {
      assert Counted(st.pkts, st.bufs, st.work, st.hands, x) && Sound(st.pkts[x], x);
      TallyUpdate(st.work, s, t.work[s], Handles(x));
    }
    forall u | 0 <= u < |t.work| ensures Holding(t.pkts, t.work[u]) { assert Holding(st.pkts, st.work[u]); }
    Rebooked(t);
  }

  lemma MakeBooks(st: State, s: nat, len: nat, media: FQ.Media, key: bool, oom: bool)
    requires Booked(st) && s < |st.work| && st.work[s].Snapped?
    ensures Booked(Make(st, s, len, media, key, oom))
  {
    var t := Make(st, s, len, media, key, oom);
    if oom {
      IdleBooks(st, s, t);
    } else {
      NextIsUnheld(st);
      BornBooks(st, s, |st.pkts|, t);
    }
  }

  /** The producer takes one more reference or gives up its only one. */
  lemma HandleBooks(st: State, s: nat, p: nat, t: State)
    requires Booked(st) && s < |st.work| && (st.work[s] == Built(p) || (st.work[s].Fanning? && st.work[s].p == p))
    requires t.bufs == st.bufs && t.hands == st.hands && |t.work| == |st.work| && t.work == st.work[s := t.work[s]]
    requires p < |st.pkts| ==>
               || (t.pkts == Ref(st.pkts, p) && st.work[s].Fanning? && !st.work[s].reffed && t.work[s] == st.work[s].(reffed := true))
               || (t.pkts == Unref(st.pkts, p) && (st.work[s].Built? || !st.work[s].reffed) && (t.work[s].Rest? || t.work[s].Finishing?))
    ensures p < |st.pkts| && IsLive(st.pkts, p) && Booked(t)
  {
    assert Holding(st.pkts, st.work[s]);
    assert Handles(p)(st.work[s]) > 0;
    TallyAtLeast(st.work, s, Handles(p));
    HeldIsLive(st, p);
    AllEntriesKept(st, t.pkts);
    forall x | 0 <= x < |t.pkts| ensures CountedIn(t, x) && Sound(t.pkts[x], x) {
      assert Counted(st.pkts, st.bufs, st.work, st.hands, x) && Sound(st.pkts[x], x);
      TallyUpdate(st.work, s, t.work[s], Handles(x));
    }
    forall u | 0 <= u < |t.work| ensures Holding(t.pkts, t.work[u]) {
      if u != s {
        assert t.work[u] == st.work[u] && Holding(st.pkts, st.work[u]);
        if st.work[u].Built? { BuiltIsSole(st, u, st.work[u].p); }
      }
    }
    Rebooked(t);
  }

  // ------------------------------------------------------------------
  // A push

  /** What leaves the slots is given up; the new packet takes over the producer's extra
      reference, unless the queue gives that one up too. */
  lemma PushSettles(st: State, s: nat, q: nat, gone: seq<FQ.Packet>, b: Buffer, t: State)
    requires Booked(st) && s < |st.work| && st.work[s].Fanning? && st.work[s].reffed && q < |st.bufs|
    requires CanUnref(st.pkts, gone) && t.pkts == UnrefAll(st.pkts, gone) && |t.pkts| == |st.pkts|
    requires forall x :: 0 <= x < |st.pkts| ==> Sound(t.pkts[x], x) && Lowered(st.pkts[x], t.pkts[x], Occurs(gone, x))
    requires forall x: nat :: Slots(x)(b) + Occurs(gone, x) == Slots(x)(st.bufs[q]) + (if x == st.work[s].p then 1 else 0)
    requires Entries(st.pkts, b.q.held)
    requires t.bufs == st.bufs[q := b] && t.hands == st.hands
    requires t.work == st.work[s := Fanning(st.work[s].p, st.work[s].snap, st.work[s].i + 1, false)]
    ensures Booked(t)
  {
    var p := st.work[s].p;
    assert Holding(st.pkts, st.work[s]);
    AllEntriesKept(st, t.pkts);
    EntriesKept(st.pkts, t.pkts, b.q.held);
    forall x | 0 <= x < |t.pkts| ensures CountedIn(t, x) && Sound(t.pkts[x], x) {
      assert Counted(st.pkts, st.bufs, st.work, st.hands, x) && Lowered(st.pkts[x], t.pkts[x], Occurs(gone, x));
      TallyUpdate(st.bufs, q, b, Slots(x));
      TallyUpdate(st.work, s, t.work[s], Handles(x));
    }
    forall u | 0 <= u < |t.work| ensures Holding(t.pkts, t.work[u]) {
      if u != s {
        assert t.work[u] == st.work[u] && Holding(st.pkts, st.work[u]);
        if st.work[u].Built? { SoleSurvives(st, s, q, u, gone, b); }
      }
    }
    Rebooked(t);
  }

  lemma SoleSurvives(st: State, s: nat, q: nat, u: nat, gone: seq<FQ.Packet>, b: Buffer)
    requires Booked(st) && s < |st.work| && st.work[s].Fanning? && q < |st.bufs|
    requires u < |st.work| && u != s && st.work[u].Built?
    requires forall x: nat :: Slots(x)(b) + Occurs(gone, x) == Slots(x)(st.bufs[q]) + (if x == st.work[s].p then 1 else 0)
    ensures Occurs(gone, st.work[u].p) == 0
  {
    BuiltIsSole(st, u, st.work[u].p);
    assert Handles(st.work[u].p)(st.work[s]) == 0;
    assert Slots(st.work[u].p)(st.bufs[q]) == 0;
    assert Slots(st.work[u].p)(b) + Occurs(gone, st.work[u].p) == 0;
  }

  lemma PushBooks(st: State, s: nat)
    requires Booked(st) && s < |st.work| && st.work[s].Fanning? && st.work[s].reffed
    requires st.work[s].i < |st.work[s].snap| && st.work[s].snap[st.work[s].i] < |st.bufs|
    ensures IsLive(st.pkts, st.work[s].p)
    ensures CanUnref(st.pkts, Surrendered(st.bufs[st.work[s].snap[st.work[s].i]], st.pkts[st.work[s].p].tag))
    ensures Booked(Push(st, s))
  {
    var p, q := st.work[s].p, st.work[s].snap[st.work[s].i];
    assert Holding(st.pkts, st.work[s]);
    TallyAtLeast(st.work, s, Handles(p));
    HeldIsLive(st, p);
    if st.bufs[q].q.closed {
      ClosedPushBooks(st, s, p, q);
    } else {
      OpenPushBooks(st, s, p, q);
    }
  }

  lemma ClosedPushBooks(st: State, s: nat, p: nat, q: nat)
    requires Booked(st) && s < |st.work| && st.work[s].Fanning? && st.work[s].reffed && st.work[s].p == p
    requires st.work[s].i < |st.work[s].snap| && st.work[s].snap[st.work[s].i] == q < |st.bufs|
    requires st.bufs[q].q.closed && IsLive(st.pkts, p)
    ensures CanUnref(st.pkts, Surrendered(st.bufs[q], st.pkts[p].tag)) && Booked(Push(st, s))
  {
    var gone := [st.pkts[p].tag];
    assert Sound(st.pkts[p], p);
    forall x: nat ensures Occurs(gone, x) == if x == p then 1 else 0 { assert gone[1..] == []; }
    forall x | 0 <= x < |st.pkts| ensures Sound(st.pkts[x], x) && Occurs(gone, x) <= st.pkts[x].ref {
      assert Sound(st.pkts[x], x);
    }
    UnrefAllIs(st.pkts, gone);
    assert Entries(st.pkts, st.bufs[q].q.held);
    PushSettles(st, s, q, gone, st.bufs[q], Push(st, s));
  }

  lemma OpenPushBooks(st: State, s: nat, p: nat, q: nat)
    requires Booked(st) && s < |st.work| && st.work[s].Fanning? && st.work[s].reffed && st.work[s].p == p
    requires st.work[s].i < |st.work[s].snap| && st.work[s].snap[st.work[s].i] == q < |st.bufs|
    requires !st.bufs[q].q.closed && IsLive(st.pkts, p)
    ensures CanUnref(st.pkts, Surrendered(st.bufs[q], st.pkts[p].tag)) && Booked(Push(st, s))
  {
    var b, tag := st.bufs[q], st.pkts[p].tag;
    var held := b.q.held;
    var n := FQ.Removed(b.cap, b.q, tag.len);
    assert Sound(st.pkts[p], p) && Entries(st.pkts, held);
    SurrenderIs(st, q, n);
    var b' := b.(q := FQ.PushTo(b.cap, b.q, tag));
    assert b'.q.held == held[n..] + [tag];
    forall x: nat ensures Slots(x)(b') + Occurs(held[..n], x) == Slots(x)(b) + (if x == p then 1 else 0) {
      OccursConcat(held[n..], [tag], x);
      assert [tag][1..] == [];
      assert Occurs([tag], x) == if x == p then 1 else 0;
    }
    forall j | 0 <= j < |b'.q.held| ensures Entry(st.pkts, b'.q.held[j]) {
      if j < |held| - n { assert b'.q.held[j] == held[n + j] && Entry(st.pkts, held[n + j]); }
    }
    PushSettles(st, s, q, held[..n], b', Push(st, s));
  }
}
