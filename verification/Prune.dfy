/** The recorder's pruner in src/record.c: the oldest files of a tree in a bounded sorted
    array, and deleting them only as far as the free-space target asks.
  */
module Prune {

  const BATCH: nat := 32
  const MAX_DEPTH: nat := 8
  const WALKS: nat := 32
  const MB: nat := 1024 * 1024

  datatype File = File(mt: int, path: string, size: nat)

  /** A directory entry; entries that are neither files nor directories are skipped. */
  datatype Node = Leaf(file: File) | Dir(children: seq<Node>) | Other

  // ------------------------------------------------------------------
  // The walk

  /** The files a walk visits, in order. */
  function Visited(nodes: seq<Node>, depth: nat): seq<File>
    decreases nodes, 0
  {
    if nodes == [] || depth > MAX_DEPTH then [] else VisitedNode(nodes[0], depth) + Visited(nodes[1..], depth)
  }

  function VisitedNode(node: Node, depth: nat): seq<File>
    decreases node, 1
  {
    match node
    case Leaf(f) => [f]
    case Dir(children) => Visited(children, depth + 1)
    case Other => []
  }

  function TotalSize(files: seq<File>): nat {
    if files == [] then 0 else TotalSize(files[..|files| - 1]) + files[|files| - 1].size
  }

  // ------------------------------------------------------------------
  // Sorting

  /** Stable insertion: behind everything as old or older. */
  function Insert(s: seq<File>, f: File): seq<File> {
    if s == [] then [f]
    else if s[|s| - 1].mt > f.mt then Insert(s[..|s| - 1], f) + [s[|s| - 1]]
    else s + [f]
  }

  /** The files sorted by age, first visited first among equals. */
  function Sort(files: seq<File>): seq<File> {
    if files == [] then [] else Insert(Sort(files[..|files| - 1]), files[|files| - 1])
  }

  function Take(s: seq<File>): (r: seq<File>)
    ensures |r| == if |s| <= BATCH then |s| else BATCH
  {
    if |s| <= BATCH then s else s[..BATCH]
  }

  predicate Sorted(s: seq<File>) {
    forall i, j :: 0 <= i < j < |s| ==> s[i].mt <= s[j].mt
  }

  /** The files of one age, in order. */
  function Aged(s: seq<File>, mt: int): seq<File> {
    if s == [] then [] else Aged(s[..|s| - 1], mt) + (if s[|s| - 1].mt == mt then [s[|s| - 1]] else [])
  }

  lemma {:induction false} AgedConcat(a: seq<File>, b: seq<File>, mt: int)
    ensures Aged(a + b, mt) == Aged(a, mt) + Aged(b, mt)
    decreases |b|
  {
    if b == [] {
      assert a + b == a;
    } else {
      assert (a + b)[..|a + b| - 1] == a + b[..|b| - 1];
      AgedConcat(a, b[..|b| - 1], mt);
    }
  }

  /** Where an insertion goes. */
  predicate Place(s: seq<File>, f: File, i: nat) {
    i <= |s| && (i > 0 ==> s[i - 1].mt <= f.mt) && forall k :: i <= k < |s| ==> s[k].mt > f.mt
  }

  lemma {:induction false} InsertAt(s: seq<File>, f: File, i: nat)
    requires Place(s, f, i)
    ensures Insert(s, f) == s[..i] + [f] + s[i..]
    decreases |s|
  {
    if i == |s| {
      assert s[..i] == s && s[i..] == [];
    } else {
      var init, last := s[..|s| - 1], s[|s| - 1];
      InsertAt(init, f, i);
      assert s[..i] == init[..i] && s[i..] == init[i..] + [last];
    }
  }

  lemma {:induction false} HasPlace(s: seq<File>, f: File) returns (i: nat)
    requires Sorted(s)
    ensures Place(s, f, i)
    decreases |s|
  {
    if s == [] || s[|s| - 1].mt <= f.mt {
      i := |s|;
    } else {
      i := HasPlace(s[..|s| - 1], f);
    }
  }

  lemma InsertSorts(s: seq<File>, f: File)
    requires Sorted(s)
    ensures Sorted(Insert(s, f)) && |Insert(s, f)| == |s| + 1
    ensures multiset(Insert(s, f)) == multiset(s) + multiset{f}
  {
    var i := HasPlace(s, f);
    InsertAt(s, f, i);
    PlacedSorted(s, f, i);
    PlacedFiles(s, f, i);
  }

  lemma PlacedFiles(s: seq<File>, f: File, i: nat)
    requires i <= |s|
    ensures multiset(s[..i] + [f] + s[i..]) == multiset(s) + multiset{f}
  {
    assert s == s[..i] + s[i..];
  }

  lemma PlacedSorted(s: seq<File>, f: File, i: nat)
    requires Sorted(s) && Place(s, f, i)
    ensures Sorted(s[..i] + [f] + s[i..])
  {
    var r := s[..i] + [f] + s[i..];
    forall j, k | 0 <= j < k < |r| ensures r[j].mt <= r[k].mt {
      if j < i && k == i { assert s[j].mt <= s[i - 1].mt; }
    }
  }

  lemma {:induction false} InsertAges(s: seq<File>, f: File, mt: int)
    ensures Aged(Insert(s, f), mt) == Aged(s, mt) + (if f.mt == mt then [f] else [])
    decreases |s|
  {
    AgedOne(f, mt);
    if s != [] {
      var init, last := s[..|s| - 1], s[|s| - 1];
      if last.mt > f.mt {
        InsertAges(init, f, mt);
        AgedConcat(Insert(init, f), [last], mt);
        AgedOne(last, mt);
        YoungestIsLast(init, last, f, mt);
      } else {
        AgedConcat(s, [f], mt);
      }
    }
  }

  lemma AgedOne(f: File, mt: int)
    ensures Aged([f], mt) == if f.mt == mt then [f] else []
  {
    assert [f][..0] == [];
  }

  /** Files younger than f at the end do not disturb f's age. */
  lemma YoungestIsLast(init: seq<File>, last: File, f: File, mt: int)
    requires last.mt > f.mt
    ensures Aged(init, mt) + (if f.mt == mt then [f] else []) + (if last.mt == mt then [last] else [])
         == Aged(init, mt) + (if last.mt == mt then [last] else []) + (if f.mt == mt then [f] else [])
  {}

  /** What the reference order means: sorted by age, the same files, and files of one age
      in the order they were visited. */
  lemma {:induction false} SortIsStable(files: seq<File>, mt: int)
    ensures Sorted(Sort(files)) && multiset(Sort(files)) == multiset(files)
    ensures Aged(Sort(files), mt) == Aged(files, mt)
    decreases |files|
  {
    if files != [] {
      var init, last := files[..|files| - 1], files[|files| - 1];
      assert files == init + [last];
      SortIsStable(init, mt);
      InsertSorts(Sort(init), last);
      InsertAges(Sort(init), last, mt);
    }
  }

  // ------------------------------------------------------------------
  // The bounded array

  /** What one more file does to the array. */
  function Add(c: seq<File>, f: File): seq<File> {
    Take(Insert(c, f))
  }

  /** Keeping only the first BATCH after each insertion loses nothing of the first BATCH. */
  lemma {:induction false} TakeInsert(s: seq<File>, f: File)
    requires Sorted(s)
    ensures Take(Insert(Take(s), f)) == Take(Insert(s, f))
    decreases |s|
  {
    if |s| > BATCH {
      var init, last := s[..|s| - 1], s[|s| - 1];
      TakeInsert(init, f);
      InsertLength(init, f);
      InsertLength(Take(s), f);
      assert Take(init) == Take(s);
      if last.mt > f.mt {
        assert Take(Insert(init, f) + [last]) == Take(Insert(init, f));
      } else {
        assert Take(s + [f]) == Take(s);
        YoungerStaysOut(Take(s), f, last);
      }
    }
  }

  lemma {:induction false} InsertLength(s: seq<File>, f: File)
    ensures |Insert(s, f)| == |s| + 1
    decreases |s|
  {
    if s != [] { InsertLength(s[..|s| - 1], f); }
  }

  lemma YoungerStaysOut(c: seq<File>, f: File, last: File)
    requires |c| == BATCH && c[BATCH - 1].mt <= last.mt <= f.mt
    ensures Take(Insert(c, f)) == c
  {
    assert Insert(c, f) == c + [f];
  }

  /** The array after a walk. */
  function Oldest(files: seq<File>): seq<File> {
    if files == [] then [] else Add(Oldest(files[..|files| - 1]), files[|files| - 1])
  }

  /** After any walk the array is the first BATCH of the stable order of all files visited. */
  lemma {:induction false} OldestIsStable(files: seq<File>)
    ensures Oldest(files) == Take(Sort(files))
    decreases |files|
  {
    if files != [] {
      var init, last := files[..|files| - 1], files[|files| - 1];
      OldestIsStable(init);
      SortIsStable(init, 0);
      TakeInsert(Sort(init), last);
    }
  }

  lemma OldestIsSorted(files: seq<File>)
    ensures Sorted(Oldest(files)) && |Oldest(files)| <= BATCH
  {
    OldestIsStable(files);
    SortIsStable(files, 0);
  }

  /** With the array full and the newcomer older than its last entry, that entry goes. */
  lemma FullInsert(c: seq<File>, f: File)
    requires |c| == BATCH && c[BATCH - 1].mt > f.mt
    ensures Take(Insert(c, f)) == Insert(c[..BATCH - 1], f)
  {
    InsertLength(c[..BATCH - 1], f);
  }

  /** Shift everything younger than f up by one and put f in its place. */
  method Shift(c: array<File>, last: nat, f: File)
    requires last < c.Length
    modifies c
    ensures c[..last + 1] == Insert(old(c[..last]), f)
  {
    ghost var base := c[..last];
    var i := last;
    while i > 0 && c[i - 1].mt > f.mt
      invariant 0 <= i <= last
      invariant forall k :: 0 <= k < i ==> c[k] == base[k]
      invariant forall k :: i < k <= last ==> c[k] == base[k - 1]
      invariant forall k :: i <= k < last ==> base[k].mt > f.mt
    {
      c[i] := c[i - 1];
      i := i - 1;
    }
    c[i] := f;
    InsertAt(base, f, i);
    Shifted(base, f, i, c[..last + 1]);
  }

  lemma Shifted(base: seq<File>, f: File, i: nat, now: seq<File>)
    requires i <= |base| && |now| == |base| + 1 && now[i] == f
    requires forall k :: 0 <= k < i ==> now[k] == base[k]
    requires forall k :: i < k <= |base| ==> now[k] == base[k - 1]
    ensures now == base[..i] + [f] + base[i..]
  {}

  /** cand_add on the array in place. */
  method CandAdd(c: array<File>, n: nat, f: File) returns (n': nat)
    requires c.Length == BATCH && n <= BATCH
    modifies c
    ensures n' <= BATCH && c[..n'] == Add(old(c[..n]), f)
  {
    ghost var was := c[..n];
    InsertLength(was, f);
    if n == BATCH && f.mt >= c[BATCH - 1].mt {
      assert Insert(was, f) == was + [f];
      return n;
    }
    n' := if n < BATCH then n + 1 else BATCH;
    if n == BATCH { FullInsert(was, f); }
    assert c[..n' - 1] == was[..n' - 1] && was[..n] == was;
    Shift(c, n' - 1, f);
  }

  lemma OldestSnoc(a: seq<File>, f: File)
    ensures Oldest(a + [f]) == Add(Oldest(a), f) && TotalSize(a + [f]) == TotalSize(a) + f.size
  {
    assert (a + [f])[..|a|] == a;
  }

  /** The array and the byte total after `seen`. */
  predicate Gathered(c: seq<File>, bytes: nat, seen: seq<File>) {
    c == Oldest(seen) && bytes == TotalSize(seen)
  }

  /** The recursive walk, collecting into the array and adding up the sizes. `seen` is
      what the walk has visited before. */
  method Collect(nodes: seq<Node>, depth: nat, c: array<File>, n: nat, bytes: nat, ghost seen: seq<File>) returns (n': nat, bytes': nat)
    requires c.Length == BATCH && n <= BATCH && Gathered(c[..n], bytes, seen)
    modifies c
    ensures n' <= BATCH && Gathered(c[..n'], bytes', seen + Visited(nodes, depth))
    decreases nodes, 0
  {
    n', bytes' := n, bytes;
    if nodes == [] || depth > MAX_DEPTH {
      assert seen + Visited(nodes, depth) == seen;
      return;
    }
    n', bytes' := CollectNode(nodes[0], depth, c, n, bytes, seen);
    ghost var here := VisitedNode(nodes[0], depth);
    assert seen + Visited(nodes, depth) == (seen + here) + Visited(nodes[1..], depth);
    n', bytes' := Collect(nodes[1..], depth, c, n', bytes', seen + here);
  }

  method CollectNode(node: Node, depth: nat, c: array<File>, n: nat, bytes: nat, ghost seen: seq<File>) returns (n': nat, bytes': nat)
    requires c.Length == BATCH && n <= BATCH && Gathered(c[..n], bytes, seen)
    modifies c
    ensures n' <= BATCH && Gathered(c[..n'], bytes', seen + VisitedNode(node, depth))
    decreases node, 1
  {
    match node {
      case Leaf(f) =>
        OldestSnoc(seen, f);
        n' := CandAdd(c, n, f);
        bytes' := bytes + f.size;
      case Dir(children) =>
        n', bytes' := Collect(children, depth + 1, c, n, bytes, seen);
      case Other =>
        n', bytes' := n, bytes;
        assert seen + [] == seen;
    }
  }

  // ------------------------------------------------------------------
  // Pruning

  /** What the pruner sees of the world: free megabytes at each reading (negative when it
      cannot be read), the tree at each walk, and whether each deletion succeeds. */
  datatype World = World(free: nat -> int, tree: nat -> seq<Node>, unlink: nat -> bool)

  /** What it did, in order. */
  datatype Event = Reading(fm: int) | Walk(files: seq<File>) | Unlink(path: string, ok: bool)

  /** The last reading before position i was below the target. */
  predicate Short(trace: seq<Event>, i: nat, target: int)
    requires i <= |trace|
    decreases i
  {
    i > 0 && (if trace[i - 1].Reading? then 0 <= trace[i - 1].fm < target else Short(trace, i - 1, target))
  }

  /** The newest walk before position i, and how many deletions there have been since. */
  predicate Due(trace: seq<Event>, i: nat, k: nat, path: string)
    requires i <= |trace|
    decreases i
  {
    i > 0
    && match trace[i - 1]
       case Walk(files) => k < |Oldest(files)| && Oldest(files)[k].path == path
       case Unlink(_, _) => Due(trace, i - 1, k + 1, path)
       case Reading(_) => Due(trace, i - 1, k, path)
  }

  /** Every deletion is asked for by the last reading, and within a walk the oldest files
      go first, one after the other. */
  predicate Justified(trace: seq<Event>, target: int) {
    forall i :: 0 <= i < |trace| && trace[i].Unlink? ==>
      Short(trace, i, target) && Due(trace, i, 0, trace[i].path)
  }

  lemma {:induction false} PrefixKeeps(trace: seq<Event>, more: seq<Event>, i: nat, target: int, k: nat, path: string)
    requires i <= |trace|
    ensures Short(trace + more, i, target) == Short(trace, i, target)
    ensures Due(trace + more, i, k, path) == Due(trace, i, k, path)
    decreases i
  {
    if i > 0 {
      PrefixKeeps(trace, more, i - 1, target, k, path);
      PrefixKeeps(trace, more, i - 1, target, k + 1, path);
    }
  }

  lemma JustifiedMore(trace: seq<Event>, e: Event, target: int)
    requires Justified(trace, target)
    requires e.Unlink? ==> Short(trace, |trace|, target) && Due(trace, |trace|, 0, e.path)
    ensures Justified(trace + [e], target)
  {
    var t := trace + [e];
    forall i | 0 <= i < |t| && t[i].Unlink? ensures Short(t, i, target) && Due(t, i, 0, t[i].path) {
      PrefixKeeps(trace, [e], i, target, 0, t[i].path);
    }
  }

  /** After one more event. */
  lemma AfterEvent(trace: seq<Event>, e: Event, target: int, k: nat, path: string)
    ensures Short(trace + [e], |trace| + 1, target) ==
            if e.Reading? then 0 <= e.fm < target else Short(trace, |trace|, target)
    ensures Due(trace + [e], |trace| + 1, k, path) ==
            (match e
             case Walk(files) => k < |Oldest(files)| && Oldest(files)[k].path == path
             case Unlink(_, _) => Due(trace, |trace|, k + 1, path)
             case Reading(_) => Due(trace, |trace|, k, path))
  {
    PrefixKeeps(trace, [e], |trace|, target, k, path);
    PrefixKeeps(trace, [e], |trace|, target, k + 1, path);
  }

  function Walks(trace: seq<Event>): nat {
    if trace == [] then 0 else Walks(trace[..|trace| - 1]) + if trace[|trace| - 1].Walk? then 1 else 0
  }

  lemma WalksMore(trace: seq<Event>, e: Event)
    ensures Walks(trace + [e]) == Walks(trace) + if e.Walk? then 1 else 0
  {
    assert (trace + [e])[..|trace|] == trace;
  }

  /** Why pruning may stop: the target is met or cannot be read, there is nothing left to
      delete, a deletion failed, or every walk has been used up. */
  predicate Settled(trace: seq<Event>, target: int) {
    trace != []
    && match trace[|trace| - 1]
       case Reading(fm) => fm < 0 || fm >= target || Walks(trace) == WALKS
       case Walk(files) => Oldest(files) == []
       case Unlink(_, ok) => !ok
  }

  // ------------------------------------------------------------------
  // Paths that lead out of the tree

  /** `sub` starts at position i. */
  predicate At(s: string, sub: string, i: nat) {
    i + |sub| <= |s| && s[i..i + |sub|] == sub
  }

  predicate HasDotdot(s: string) {
    s == ".." || At(s, "../", 0) || (exists i :: 0 <= i < |s| && At(s, "/../", i)) || (|s| >= 3 && At(s, "/..", |s| - 3))
  }

  /** The whole path component at i is "..". */
  predicate UpAt(s: string, i: nat) {
    && At(s, "..", i)
    && (i == 0 || s[i - 1] == '/')
    && (i + 2 == |s| || s[i + 2] == '/')
  }

  /** Four comparisons find exactly the paths with a component "..", and none that only
      contains two dots. */
  lemma DotdotIsComponent(s: string)
    ensures HasDotdot(s) <==> exists i :: 0 <= i < |s| && UpAt(s, i)
  {
    if s == ".." {
      UpAtChars(s, 0);
    } else if At(s, "../", 0) {
      AtChars(s, "../", 0);
      UpAtChars(s, 0);
    } else if i :| 0 <= i < |s| && At(s, "/../", i) {
      AtChars(s, "/../", i);
      UpAtChars(s, i + 1);
    } else if |s| >= 3 && At(s, "/..", |s| - 3) {
      AtChars(s, "/..", |s| - 3);
      UpAtChars(s, |s| - 2);
    }
    if i :| 0 <= i < |s| && UpAt(s, i) {
      UpIsSeen(s, i);
    }
  }

  lemma AtChars(s: string, sub: string, i: nat)
    requires At(s, sub, i) && 2 <= |sub| <= 4
    ensures s[i] == sub[0] && s[i + 1] == sub[1]
    ensures |sub| > 2 ==> s[i + 2] == sub[2]
    ensures |sub| > 3 ==> s[i + 3] == sub[3]
  {
    var t := s[i..i + |sub|];
    assert t[0] == s[i] && t[1] == s[i + 1];
    if |sub| > 2 { assert t[2] == s[i + 2]; }
    if |sub| > 3 { assert t[3] == s[i + 3]; }
  }

  lemma UpAtChars(s: string, i: nat)
    requires i + 2 <= |s| && s[i] == '.' && s[i + 1] == '.'
    requires (i == 0 || s[i - 1] == '/') && (i + 2 == |s| || s[i + 2] == '/')
    ensures UpAt(s, i)
  {
    assert s[i..i + 2] == "..";
  }

  lemma UpIsSeen(s: string, i: nat)
    requires UpAt(s, i)
    ensures HasDotdot(s)
  {
    AtChars(s, "..", i);
    if i == 0 {
      if |s| == 2 { assert s == ".."; } else { assert s[0..3] == "../"; }
    } else if i + 2 == |s| {
      assert s[|s| - 3..|s| - 3 + 3] == "/..";
    } else {
      assert s[i - 1..i - 1 + 4] == "/../";
      assert At(s, "/../", i - 1);
    }
  }

  // ------------------------------------------------------------------
  // Pruning

  /** Why recording may be refused, nothing having been deleted: an earlier refusal still
      stands, or not even deleting every recording would do. */
  predicate Refused(trace: seq<Event>, target: int, standing: bool) {
    if standing then |trace| == 1 && trace[0].Reading?
    else |trace| == 3 && trace[0].Reading? && trace[1].Reading? && trace[2].Walk?
         && 0 <= trace[1].fm && trace[1].fm + TotalSize(trace[2].files) / MB < target
  }

  class Pruner {
    /** Until when a refusal stands. */
    var refusedUntil: int
    /** What the current call has done so far. */
    ghost var trace: seq<Event>
    var readings: nat
    var walks: nat
    var unlinks: nat

    constructor ()
      ensures trace == [] && refusedUntil == 0
    {
      refusedUntil, trace, readings, walks, unlinks := 0, [], 0, 0, 0;
    }

    method Read(w: World) returns (fm: int)
      modifies this`readings, this`trace
      ensures trace == old(trace) + [Reading(fm)]
    {
      fm := w.free(readings);
      readings := readings + 1;
      trace := trace + [Reading(fm)];
    }

    /** One walk over the tree as it is now. */
    method Gather(w: World, c: array<File>) returns (n: nat, bytes: nat, ghost files: seq<File>)
      requires c.Length == BATCH
      modifies this`walks, this`trace, c
      ensures n <= BATCH && c[..n] == Oldest(files) && bytes == TotalSize(files)
      ensures trace == old(trace) + [Walk(files)]
    {
      var nodes := w.tree(walks);
      walks := walks + 1;
      files := Visited(nodes, 0);
      assert [] + files == files;
      n, bytes := Collect(nodes, 0, c, 0, 0, []);
      trace := trace + [Walk(files)];
    }

    method Delete(w: World, f: File) returns (ok: bool)
      modifies this`unlinks, this`trace
      ensures trace == old(trace) + [Unlink(f.path, ok)]
    {
      ok := w.unlink(unlinks);
      unlinks := unlinks + 1;
      trace := trace + [Unlink(f.path, ok)];
    }

    /** Delete the collected files, oldest first, until a reading meets the target. `more`
        says whether another walk may help. */
    method DeleteBatch(w: World, target: int, c: array<File>, n: nat) returns (more: bool)
      requires 0 < n <= c.Length == BATCH
      requires Justified(trace, target) && Short(trace, |trace|, target)
      requires forall k :: 0 <= k < n ==> Due(trace, |trace|, k, c[k].path)
      modifies this`unlinks, this`trace, this`readings
      ensures Justified(trace, target) && Walks(trace) == Walks(old(trace))
      ensures !more ==> Settled(trace, target)
      ensures more ==> trace != [] && trace[|trace| - 1].Reading?
    {
      var i := 0;
      while i < n
        invariant 0 <= i <= n && Justified(trace, target) && Short(trace, |trace|, target)
        invariant forall k :: i <= k < n ==> Due(trace, |trace|, k - i, c[k].path)
        invariant Walks(trace) == Walks(old(trace))
        invariant i > 0 ==> trace != [] && trace[|trace| - 1].Reading?
      {
        ghost var rest := c[i + 1..n];
        forall k | 0 <= k < |rest| ensures Due(trace, |trace|, k + 1, rest[k].path) {
          assert rest[k] == c[i + 1 + k] && Due(trace, |trace|, i + 1 + k - i, c[i + 1 + k].path);
        }
        assert Due(trace, |trace|, i - i, c[i].path);
        more := DeleteOne(w, target, c[i], rest);
        if !more { return; }
        forall k | i + 1 <= k < n ensures Due(trace, |trace|, k - (i + 1), c[k].path) {
          assert rest[k - (i + 1)] == c[k];
        }
        i := i + 1;
      }
      more := true;
    }

    /** One deletion and the reading after it. `rest` are the files due next. */
    method DeleteOne(w: World, target: int, f: File, ghost rest: seq<File>) returns (more: bool)
      requires Justified(trace, target) && Short(trace, |trace|, target)
      requires Due(trace, |trace|, 0, f.path)
      requires forall k :: 0 <= k < |rest| ==> Due(trace, |trace|, k + 1, rest[k].path)
      modifies this`unlinks, this`trace, this`readings
      ensures Justified(trace, target) && Walks(trace) == Walks(old(trace))
      ensures !more ==> Settled(trace, target)
      ensures more ==> Short(trace, |trace|, target) && trace != [] && trace[|trace| - 1].Reading?
      ensures more ==> forall k :: 0 <= k < |rest| ==> Due(trace, |trace|, k, rest[k].path)
    {
      ghost var before := trace;
      var ok := Delete(w, f);
      JustifiedMore(before, Unlink(f.path, ok), target);
      WalksMore(before, Unlink(f.path, ok));
      if !ok { return false; }
      ghost var mid := trace;
      var fm := Read(w);
      JustifiedMore(mid, Reading(fm), target);
      WalksMore(mid, Reading(fm));
      more := !(fm < 0 || fm >= target);
      AfterEvent(mid, Reading(fm), target, 0, "");
      forall k | 0 <= k < |rest| ensures Due(trace, |trace|, k, rest[k].path) {
        AfterEvent(before, Unlink(f.path, ok), target, k, rest[k].path);
        AfterEvent(mid, Reading(fm), target, k, rest[k].path);
      }
    }

    /** One walk and what is deleted after it. */
    method OneWalk(w: World, target: int, c: array<File>, first: bool, now: int) returns (more: bool, refused: bool)
      requires c.Length == BATCH && Justified(trace, target)
      requires first ==> |trace| == 1 && trace[0].Reading?
      modifies this, c
      ensures Justified(trace, target)
      ensures refused ==> !more && first && Refused(trace, target, false) && refusedUntil == now + 5 * 1000000
      ensures !refused ==> refusedUntil == old(refusedUntil)
      ensures !more && !refused ==> Settled(trace, target)
      ensures more ==> Walks(trace) == Walks(old(trace)) + 1 && trace != [] && trace[|trace| - 1].Reading?
    {
      ghost var t0 := trace;
      var fm := Read(w);
      JustifiedMore(t0, Reading(fm), target);
      WalksMore(t0, Reading(fm));
      if fm < 0 || fm >= target { return false, false; }
      ghost var t1 := trace;
      AfterEvent(t0, Reading(fm), target, 0, "");
      var n, bytes, files := Gather(w, c);
      JustifiedMore(t1, Walk(files), target);
      WalksMore(t1, Walk(files));
      if first && fm + bytes / MB < target {
        refusedUntil := now + 5 * 1000000;
        return false, true;
      }
      if n == 0 { return false, false; }
      forall k | 0 <= k < n ensures Due(trace, |trace|, k, c[k].path) {
        AfterEvent(t1, Walk(files), target, k, c[k].path);
        assert c[..n][k] == c[k];
      }
      AfterEvent(t1, Walk(files), target, 0, "");
      more := DeleteBatch(w, target, c, n);
      refused := false;
    }

    /** 0 means recording may go on, -1 that the directory leads out of the tree or that the
        target cannot be reached: then nothing has been deleted. */
    method PruneFree(w: World, dir: string, target: int, now: int) returns (rc: int)
      modifies this
      ensures Justified(trace, target)
      ensures rc == 0 || rc == -1
      ensures target <= 0 ==> rc == 0 && trace == []
      ensures target > 0 && HasDotdot(dir) ==> rc == -1 && trace == []
      ensures rc == -1 && !HasDotdot(dir) ==> Refused(trace, target, now < old(refusedUntil))
      ensures rc == -1 ==> forall e :: e in trace ==> !e.Unlink?
      ensures rc == 0 && target > 0 ==> Settled(trace, target)
      ensures refusedUntil == if rc == -1 && !HasDotdot(dir) && now >= old(refusedUntil) then now + 5 * 1000000
                              else old(refusedUntil)
    {
      trace := [];
      if target <= 0 { return 0; }
      if HasDotdot(dir) { return -1; }
      var fm := Read(w);
      JustifiedMore([], Reading(fm), target);
      assert trace == [Reading(fm)] && trace[..0] == [];
      if fm < 0 || fm >= target { return 0; }
      if now < refusedUntil { return -1; }
      var c := new File[BATCH](_ => File(0, "", 0));
      var walk := 0;
      while walk < WALKS
        invariant 0 <= walk <= WALKS && Justified(trace, target)
        invariant walk == 0 ==> trace == [Reading(fm)]
        invariant walk > 0 ==> trace != [] && trace[|trace| - 1].Reading?
        invariant Walks(trace) == walk && refusedUntil == old(refusedUntil)
      {
        var more, refused := OneWalk(w, target, c, walk == 0, now);
        if refused { return -1; }
        if !more { return 0; }
        walk := walk + 1;
      }
      rc := 0;
    }
  }
}
