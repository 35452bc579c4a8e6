/** A source's subscriber table (src/hub.c) and a source's packet pool (src/frame.c) as
    they are changed in place, each operation one critical section. The step system in
    Fanout is built from what these operations do.
  */
module HubSource {
  import opened Fanout

  lemma {:induction false} WithoutAt(subs: seq<nat>, q: nat, i: nat)
    requires i <= |subs| && (forall j :: 0 <= j < i ==> subs[j] != q) && (i < |subs| ==> subs[i] == q)
    ensures Without(subs, q) == if i == |subs| then subs else subs[i := subs[|subs| - 1]][..|subs| - 1]
    decreases |subs|
  {
    if subs != [] && i > 0 {
      WithoutAt(subs[1..], q, i - 1);
      if i < |subs| {
        assert subs[i := subs[|subs| - 1]][..|subs| - 1] ==
               [subs[0]] + subs[1..][i - 1 := subs[1..][|subs| - 2]][..|subs| - 2];
      }
    }
  }

  class Source {
    const subs: array<nat>
    var nsub: nat
    var pushing: bool

    ghost predicate Valid()
      reads this
    {
      subs.Length == MAX_SUBS && nsub <= MAX_SUBS
    }

    ghost function View(): Hub
      requires Valid()
      reads this, subs
    {
      Hub(subs[..nsub], pushing)
    }

    constructor ()
      ensures Valid() && fresh(subs) && View() == Hub([], false)
    {
      subs := new nat[MAX_SUBS];
      nsub, pushing := 0, false;
    }

    /** hub_subscribe under the lock. */
    method Add(q: nat) returns (ok: bool)
      requires Valid()
      modifies this`nsub, subs
      ensures Valid() && ok == (|old(View()).subs| < MAX_SUBS)
      ensures View() == if ok then old(View()).(subs := old(View()).subs + [q]) else old(View())
    {
      ok := nsub < MAX_SUBS;
      if ok {
        subs[nsub] := q;
        nsub := nsub + 1;
      }
    }

    /** hub_unsubscribe before it waits: the last entry takes the place of the one removed. */
    method Remove(q: nat)
      requires Valid()
      modifies this`nsub, subs
      ensures Valid() && View() == old(View()).(subs := Without(old(View()).subs, q))
    {
      ghost var was := subs[..nsub];
      var i := 0;
      while i < nsub && subs[i] != q
        invariant 0 <= i <= nsub && forall j :: 0 <= j < i ==> subs[j] != q
      {
        i := i + 1;
      }
      WithoutAt(was, q, i);
      if i < nsub {
        nsub := nsub - 1;
        subs[i] := subs[nsub];
        assert subs[..nsub] == was[i := was[|was| - 1]][..|was| - 1];
      }
    }

    /** hub_prepare_locked: copy the list and, if there is anyone, raise the flag. */
    method Prepare() returns (snap: seq<nat>)
      requires Valid()
      modifies this`pushing
      ensures Valid() && snap == old(View()).subs
      ensures View() == old(View()).(pushing := old(pushing) || snap != [])
    {
      snap := [];
      for i := 0 to nsub
        invariant snap == subs[..i]
      {
        snap := snap + [subs[i]];
      }
      if nsub > 0 { pushing := true; }
    }

    method Finish()
      requires Valid()
      modifies this`pushing
      ensures Valid() && View() == old(View()).(pushing := false)
    {
      pushing := false;
    }
  }

  // ------------------------------------------------------------------
  // The packet pool

  class Packet {
    var ref: int
    var cap: nat
    var len: nat
    var next: Packet?

    constructor (cap: nat)
      ensures this.ref == 1 && this.cap == cap && len == 0 && next == null
    {
      this.cap, ref, len, next := cap, 1, 0, null;
    }
  }

  class PacketPool {
    var freelist: Packet?
    var nfree: nat
    var big: Packet?
    /** The packets linked into the freelist, in order. */
    ghost var idle: seq<Packet>

    ghost function Next(i: nat): Packet?
      reads this
    {
      if i < |idle| then idle[i] else null
    }

    ghost predicate Valid()
      reads this, idle, big
    {
      && nfree == |idle| <= MAX_FREE && freelist == Next(0)
      && (forall i, j :: 0 <= i < j < |idle| ==> idle[i] != idle[j])
      && (forall i :: 0 <= i < |idle| ==> idle[i].next == Next(i + 1))
      && (forall i :: 0 <= i < |idle| ==> idle[i].cap <= KEEP_CAP && idle[i].ref == 0)
      && (big != null ==> big.cap > KEEP_CAP && big.ref == 0 && big !in idle)
    }

    constructor ()
      ensures Valid() && idle == [] && big == null
    {
      freelist, nfree, big, idle := null, 0, null, [];
    }

    /** The idle packet a request may reuse: a large request never raids the freelist, a
        small one never takes the large buffer. */
    method Take(want: nat) returns (p: Packet?)
      requires Valid()
      modifies this
      ensures Valid() && (p != null ==> p.ref == 0 && p !in idle && p != big)
      ensures want > KEEP_CAP ==> p == old(big) && big == null && idle == old(idle)
      ensures want <= KEEP_CAP ==> p == old(freelist) && big == old(big)
                                   && idle == if old(idle) == [] then [] else old(idle)[1..]
      ensures p != null ==> (p.cap > KEEP_CAP <==> want > KEEP_CAP)
    {
      p := null;
      if want > KEEP_CAP {
        if big != null { p, big := big, null; }
      } else if freelist != null {
        p := freelist;
        assert p == idle[0];
        freelist := p.next;
        nfree := nfree - 1;
        idle := idle[1..];
      }
    }

    /** pkt_pool_get: a packet of at least the size asked for that nobody else holds, or
        nothing if memory is short. `oomNode` and `oomData` say which allocation, if it is
        needed, fails. */
    method Get(cap: nat, oomNode: bool, oomData: bool) returns (p: Packet?)
      requires Valid()
      modifies this, idle, big
      ensures Valid()
      ensures p != null ==>
                && p.ref == 1 && p.len == 0 && p.next == null && p !in idle && p != big
                && p.cap >= Wanted(cap) && (p.cap > KEEP_CAP <==> Wanted(cap) > KEEP_CAP)
      ensures Wanted(cap) > KEEP_CAP ==> big == null && idle == old(idle)
      ensures Wanted(cap) <= KEEP_CAP ==> big == old(big) && idle == if old(idle) == [] then [] else old(idle)[1..]
      ensures !oomNode && !oomData ==> p != null
    {
      var want := if cap == 0 then 1 else cap;
      p := Take(want);
      if p == null {
        if oomNode { return null; }
        p := new Packet(0);
      }
      if want > p.cap {
        if oomData { return null; }
        p.cap := want;
      }
      p.len, p.ref, p.next := 0, 1, null;
    }

    /** pkt_unref: whether the packet was freed instead of kept. */
    method Unref(p: Packet) returns (freed: bool)
      requires Valid() && p.ref >= 1
      modifies this, p
      ensures Valid() && p.ref == old(p.ref) - 1 && p.cap == old(p.cap)
      ensures old(p.ref) > 1 ==> !freed && idle == old(idle) && big == old(big)
      ensures old(p.ref) == 1 && p.cap > KEEP_CAP ==> idle == old(idle) && freed == (old(big) != null) && big == if freed then old(big) else p
      ensures old(p.ref) == 1 && p.cap <= KEEP_CAP ==>
                big == old(big) && freed == (|old(idle)| == MAX_FREE) && idle == if freed then old(idle) else [p] + old(idle)
    {
      assert p !in idle && p != big;
      p.ref := p.ref - 1;
      freed := false;
      if p.ref == 0 {
        freed := true;
        if p.cap > KEEP_CAP {
          if big == null {
            p.next := null;
            big, freed := p, false;
          }
        } else if nfree < MAX_FREE {
          p.next := freelist;
          freelist := p;
          nfree := nfree + 1;
          idle := [p] + idle;
          freed := false;
        }
      }
    }

    /** pkt_pool_trim: give the large buffer back. */
    method Trim() returns (freed: Packet?)
      requires Valid()
      modifies this`big
      ensures Valid() && big == null && idle == old(idle) && freed == old(big)
    {
      freed := big;
      big := null;
    }
  }
}
