/** The unsubscribe handshake of src/hub.c: a queue that is in a source's list, or still
    ahead of a push loop's snapshot, has not been freed.
  */
module FanoutHandshake {
  import opened Fanout

  /** The queue exists and its owner has not come back from leaving this source. */
  predicate Member(clients: seq<Client>, q: nat, s: nat) {
    q < |clients| && clients[q].alive && s in clients[q].attached
  }

  predicate Staying(clients: seq<Client>, q: nat, s: nat) {
    Member(clients, q, s) && s !in clients[q].leaving
  }

  predicate NoDup(xs: seq<nat>) {
    forall i, j :: 0 <= i < j < |xs| ==> xs[i] != xs[j]
  }

  /** The list holds each queue that subscribed and has not begun to leave, once. */
  ghost predicate Listed(clients: seq<Client>, subs: seq<nat>, s: nat) {
    && |subs| <= MAX_SUBS && NoDup(subs)
    && (forall q :: q in subs ==> Staying(clients, q, s))
    && (forall q: nat :: Staying(clients, q, s) ==> q in subs)
  }

  function Snap(w: Work): seq<nat> {
    match w
    case Snapped(snap) => snap
    case Fanning(_, snap, _, _) => snap
    case _ => []
  }

  function From(w: Work): nat {
    if w.Fanning? then w.i else 0
  }

  /** A queue not yet pushed to in this round cannot have been let go. */
  predicate Ahead(clients: seq<Client>, w: Work, s: nat) {
    forall j :: From(w) <= j < |Snap(w)| ==> Member(clients, Snap(w)[j], s)
  }

  predicate Outstanding(w: Work) {
    w.Snapped? || w.Finishing? || (w.Fanning? && w.snap != [])
  }

  predicate Shaped(w: Work) {
    && (w.Snapped? ==> w.snap != [])
    && (w.Fanning? ==> w.i <= |w.snap| && (w.reffed ==> w.i < |w.snap|))
  }

  ghost predicate Guarded(clients: seq<Client>, hub: Hub, w: Work, s: nat) {
    Listed(clients, hub.subs, s) && Ahead(clients, w, s) && Shaped(w) && (hub.pushing <==> Outstanding(w))
  }

  predicate Owned(c: Client) {
    c.leaving <= c.attached && (c.attached != {} ==> c.alive)
  }

  ghost predicate Handshake(clients: seq<Client>, hubs: seq<Hub>, work: seq<Work>) {
    && |hubs| == |work|
    && (forall s :: 0 <= s < |hubs| ==> Guarded(clients, hubs[s], work[s], s))
    && (forall q :: 0 <= q < |clients| ==> Owned(clients[q]))
  }

  // ------------------------------------------------------------------
  // Subscribers

  /** Nothing about a source changes when no membership in it does. */
  lemma Unmoved(clients: seq<Client>, clients': seq<Client>, hub: Hub, w: Work, s: nat)
    requires Guarded(clients, hub, w, s)
    requires forall q: nat :: Member(clients', q, s) <==> Member(clients, q, s)
    requires forall q: nat :: Staying(clients', q, s) <==> Staying(clients, q, s)
    ensures Guarded(clients', hub, w, s)
  {}

  lemma OpenKeeps(clients: seq<Client>, hubs: seq<Hub>, work: seq<Work>)
    requires Handshake(clients, hubs, work)
    ensures Handshake(clients + [Client(true, {}, {})], hubs, work)
  {
    var clients' := clients + [Client(true, {}, {})];
    forall s | 0 <= s < |hubs| ensures Guarded(clients', hubs[s], work[s], s) {
      Unmoved(clients, clients', hubs[s], work[s], s);
    }
  }

  lemma FreeKeeps(clients: seq<Client>, hubs: seq<Hub>, work: seq<Work>, q: nat)
    requires Handshake(clients, hubs, work) && q < |clients| && clients[q].attached == {}
    ensures Handshake(clients[q := clients[q].(alive := false)], hubs, work)
  {
    var clients' := clients[q := clients[q].(alive := false)];
    forall s | 0 <= s < |hubs| ensures Guarded(clients', hubs[s], work[s], s) {
      Unmoved(clients, clients', hubs[s], work[s], s);
    }
  }

  lemma SubscribeKeeps(clients: seq<Client>, hubs: seq<Hub>, work: seq<Work>, q: nat, s: nat)
    requires Handshake(clients, hubs, work) && q < |clients| && s < |hubs|
    requires clients[q].alive && s !in clients[q].attached && |hubs[s].subs| < MAX_SUBS
    ensures Handshake(clients[q := clients[q].(attached := clients[q].attached + {s})],
                      hubs[s := hubs[s].(subs := hubs[s].subs + [q])], work)
  {
    var clients' := clients[q := clients[q].(attached := clients[q].attached + {s})];
    var subs := hubs[s].subs;
    forall t | 0 <= t < |hubs| && t != s ensures Guarded(clients', hubs[t], work[t], t) {
      Unmoved(clients, clients', hubs[t], work[t], t);
    }
    assert Guarded(clients, hubs[s], work[s], s) && Owned(clients[q]);
    assert forall x: nat :: Member(clients, x, s) ==> Member(clients', x, s);
    assert forall x: nat :: Staying(clients', x, s) <==> Staying(clients, x, s) || x == q;
    assert q !in subs;
    assert forall x :: x in subs + [q] <==> x in subs || x == q;
  }

  lemma LastToFront(rest: seq<nat>, q: nat, last: nat)
    requires NoDup([q] + rest + [last])
    ensures NoDup([last] + rest) && q !in [last] + rest
  {
    var all := [q] + rest + [last];
    assert all[0] == q && all[|all| - 1] == last;
    forall i | 0 <= i < |rest| ensures rest[i] != q && rest[i] != last {
      assert all[i + 1] == rest[i];
    }
    assert forall i, j :: 0 <= i < j < |rest| ==> all[i + 1] == rest[i] && all[j + 1] == rest[j];
  }

  lemma {:induction false} WithoutIs(subs: seq<nat>, q: nat)
    requires NoDup(subs)
    ensures var r := Without(subs, q);
            && NoDup(r) && |r| <= |subs| && forall x :: x in r <==> x in subs && x != q
    decreases |subs|
  {
    if subs == [] {
    } else if subs[0] != q {
      var rest := Without(subs[1..], q);
      WithoutIs(subs[1..], q);
      assert subs == [subs[0]] + subs[1..] && subs[0] !in rest;
    } else if |subs| > 1 {
      assert subs == [q] + subs[1..|subs| - 1] + [subs[|subs| - 1]];
      LastToFront(subs[1..|subs| - 1], q, subs[|subs| - 1]);
    }
  }

  lemma LeaveKeeps(clients: seq<Client>, hubs: seq<Hub>, work: seq<Work>, q: nat, s: nat)
    requires Handshake(clients, hubs, work) && q < |clients| && s < |hubs|
    requires s in clients[q].attached && s !in clients[q].leaving
    ensures Handshake(clients[q := clients[q].(leaving := clients[q].leaving + {s})],
                      hubs[s := hubs[s].(subs := Without(hubs[s].subs, q))], work)
  {
    var clients' := clients[q := clients[q].(leaving := clients[q].leaving + {s})];
    forall t | 0 <= t < |hubs| && t != s ensures Guarded(clients', hubs[t], work[t], t) {
      Unmoved(clients, clients', hubs[t], work[t], t);
    }
    assert Guarded(clients, hubs[s], work[s], s) && Owned(clients[q]);
    WithoutIs(hubs[s].subs, q);
    assert forall x: nat :: Member(clients', x, s) <==> Member(clients, x, s);
    assert forall x: nat :: Staying(clients', x, s) <==> Staying(clients, x, s) && x != q;
  }

  /** The owner may come back only when no push loop of this source has anything ahead. */
  lemma ReturnKeeps(clients: seq<Client>, hubs: seq<Hub>, work: seq<Work>, q: nat, s: nat)
    requires Handshake(clients, hubs, work) && q < |clients| && s < |hubs|
    requires s in clients[q].leaving && !hubs[s].pushing
    ensures Handshake(clients[q := Client(clients[q].alive, clients[q].attached - {s}, clients[q].leaving - {s})],
                      hubs, work)
  {
    var clients' := clients[q := Client(clients[q].alive, clients[q].attached - {s}, clients[q].leaving - {s})];
    forall t | 0 <= t < |hubs| && t != s ensures Guarded(clients', hubs[t], work[t], t) {
      Unmoved(clients, clients', hubs[t], work[t], t);
    }
    assert Guarded(clients, hubs[s], work[s], s) && Owned(clients[q]);
    assert Snap(work[s]) == [];
    assert forall x: nat :: Staying(clients', x, s) <==> Staying(clients, x, s);
  }

  // ------------------------------------------------------------------
  // Producers

  /** A producer's move at one source. */
  lemma WorkKeeps(clients: seq<Client>, hubs: seq<Hub>, work: seq<Work>, s: nat, hub: Hub, w: Work)
    requires Handshake(clients, hubs, work) && s < |hubs|
    requires hub.subs == hubs[s].subs && Shaped(w) && (hub.pushing <==> Outstanding(w))
    requires Snap(w) == [] || (Snap(w) == Snap(work[s]) && From(work[s]) <= From(w)) || Snap(w) == hubs[s].subs
    ensures Handshake(clients, hubs[s := hub], work[s := w])
  {
    assert Guarded(clients, hubs[s], work[s], s);
    forall j | From(w) <= j < |Snap(w)| ensures Member(clients, Snap(w)[j], s) {
      assert Snap(w) == hubs[s].subs ==> Snap(w)[j] in hubs[s].subs;
    }
  }

  lemma SameHub(hubs: seq<Hub>, s: nat)
    requires s < |hubs|
    ensures hubs[s := hubs[s]] == hubs
  {}

  /** Every step that happens without touching freed memory keeps the handshake. */
  lemma ApplyKeeps(st: State, a: Action)
    requires Handshake(st.clients, st.hubs, st.work) && Enabled(st, a) && Safe(st, a)
    ensures var t := Apply(st, a); Handshake(t.clients, t.hubs, t.work)
  {
    match a
    case DoOpen(_) => OpenKeeps(st.clients, st.hubs, st.work);
    case DoSubscribe(q, s) =>
      if |st.hubs[s].subs| < MAX_SUBS { SubscribeKeeps(st.clients, st.hubs, st.work, q, s); }
    case DoLeave(q, s) => LeaveKeeps(st.clients, st.hubs, st.work, q, s);
    case DoReturn(q, s) => ReturnKeeps(st.clients, st.hubs, st.work, q, s);
    case DoFree(q) => FreeKeeps(st.clients, st.hubs, st.work, q);
    case DoTrim(s) =>
    case DoRecycle(p) =>
    case DoClose(q) =>
    case DoPop(q, _) =>
    case DoShare(p) =>
    case DoDrop(p) =>
    case DoFill(s, _) =>
    case _ => ProducerKeeps(st, a);
  }

  predicate Producing(a: Action) {
    a.DoGet? || a.DoPublish? || a.DoDiscard? || a.DoAnnounce? || a.DoMake? || a.DoTakeRef? || a.DoPush?
    || a.DoRelease? || a.DoFinish?
  }

  lemma ProducerKeeps(st: State, a: Action)
    requires Handshake(st.clients, st.hubs, st.work) && Enabled(st, a) && Safe(st, a) && Producing(a)
    ensures var t := Apply(st, a); Handshake(t.clients, t.hubs, t.work)
  {
    var s, t := a.s, Apply(st, a);
    assert Guarded(st.clients, st.hubs[s], st.work[s], s);
    SameHub(st.hubs, s);
    assert t.work == st.work[s := t.work[s]] && t.hubs == st.hubs[s := t.hubs[s]];
    WorkKeeps(st.clients, st.hubs, st.work, s, t.hubs[s], t.work[s]);
  }

  /** Under the handshake every push goes to a queue that exists. */
  lemma PushFindsItsQueue(st: State, s: nat)
    requires Handshake(st.clients, st.hubs, st.work) && |st.bufs| == |st.clients|
    requires Enabled(st, DoPush(s))
    ensures HasClient(st, st.work[s].snap[st.work[s].i])
  {
    assert Guarded(st.clients, st.hubs[s], st.work[s], s);
    assert Snap(st.work[s])[From(st.work[s])] == st.work[s].snap[st.work[s].i];
  }
}
