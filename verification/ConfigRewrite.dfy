/** What a rewrite of the configuration file of src/config.c means to the loader. The
    loader takes the file a physical line at a time and drops the ones that do not fit its
    buffer; the rewrite goes through it a buffer at a time. The two agree on what the lines
    are exactly under the conditions proved here, for every file and every batch.
  */
module ConfigRewrite {
  import opened ConfigLine
  import opened ConfigFile
  import opened ConfigText

  // ------------------------------------------------------------------
  // The file as the loader takes it

  /** A physical line, ended, and what the loader takes from it: nothing, if it is longer
      than the buffer. */
  function Taken(table: seq<Section>, l: string): Entry {
    Entry(Closed(l), if |l| < LINE_BUF then Read(table, l).bound else None)
  }

  /** Every physical line of the file, the dropped ones included. */
  function AsLoaded(table: seq<Section>, t: string): seq<Entry> {
    if t == "" then [] else [Taken(table, t[..LineLength(t)])] + AsLoaded(table, t[LineLength(t)..])
  }

  /** One physical line: nothing but its last character may be a newline. */
  predicate Single(l: string) {
    l != "" && '\n' !in l[..|l| - 1]
  }

  lemma {:induction false} SingleLength(l: string, rest: string)
    requires Single(l) && (rest == "" || Ended(l))
    ensures LineLength(l + rest) == |l|
    decreases |l|
  {
    if |l| == 1 {
      if l[0] != '\n' { assert (l + rest)[1..] == ""; }
    } else {
      assert l[0] in l[..|l| - 1];
      assert (l + rest)[1..] == l[1..] + rest;
      assert l[1..][..|l| - 2] == l[1..|l| - 1];
      SingleLength(l[1..], rest);
    }
  }

  /** A text falls into its first line and the rest. */
  lemma {:induction false} FirstLine(t: string) returns (l: string, rest: string)
    requires t != ""
    ensures l == t[..LineLength(t)] && rest == t[LineLength(t)..] && t == l + rest
    ensures Single(l) && (rest == "" || Ended(l)) && |rest| < |t|
  {
    l, rest := t[..LineLength(t)], t[LineLength(t)..];
    LineEnds(t);
  }

  lemma {:induction false} AsLoadedCons(table: seq<Section>, l: string, rest: string)
    requires Single(l) && (rest == "" || Ended(l))
    ensures AsLoaded(table, l + rest) == [Taken(table, l)] + AsLoaded(table, rest)
  {
    SingleLength(l, rest);
    assert (l + rest)[..|l|] == l && (l + rest)[|l|..] == rest;
  }

  /** The settings in force after a load are those of the lines as taken. */
  lemma {:induction false} LoadedIsParsed(table: seq<Section>, t: string, c: string)
    ensures Loaded(ReadAll(table, Parsed(t)), c) == Loaded(AsLoaded(table, t), c)
    decreases |t|
  {
    if t != "" {
      var l, rest := FirstLine(t);
      LoadedIsParsed(table, rest, c);
      LoadedConcat([Taken(table, l)], AsLoaded(table, rest), c);
      LoadedOne(Taken(table, l), c);
      if |l| < LINE_BUF {
        ReadAllCons(table, l, Parsed(rest));
        LoadedConcat([Read(table, l)], ReadAll(table, Parsed(rest)), c);
        LoadedOne(Read(table, l), c);
      } else {
        assert l[LINE_BUF - 2] in l[..|l| - 1] && t[LINE_BUF - 2] == l[LINE_BUF - 2];
      }
    }
  }

  // ------------------------------------------------------------------
  // Where the two readings may part

  /** Some buffer's worth of this text reads like a setting of the batch. */
  predicate SomeClaimed(table: seq<Section>, batch: seq<Order>, l: string)
    decreases |l|
  {
    l != ""
    && (Claim(batch, Read(table, l[..ChunkLength(l)])) < |batch| || SomeClaimed(table, batch, l[ChunkLength(l)..]))
  }

  /** Part of a line the loader drops reads like a setting of the batch. */
  predicate LongClaimed(table: seq<Section>, batch: seq<Order>, t: string)
    decreases |t|
  {
    t != ""
    && ((LineLength(t) >= LINE_BUF && SomeClaimed(table, batch, t[..LineLength(t)]))
        || LongClaimed(table, batch, t[LineLength(t)..]))
  }

  function LastLine(t: string): string
    decreases |t|
  {
    if t == "" || LineLength(t) == |t| then t else LastLine(t[LineLength(t)..])
  }

  /** The last line is a setting of no pair of the batch, just fills the buffer and is not
      ended. */
  predicate FullLast(table: seq<Section>, batch: seq<Order>, t: string) {
    var l := LastLine(t);
    !Ended(l) && |l| == LINE_BUF - 1 && KeyOf(l).Some? && Claim(batch, Read(table, l)) == |batch|
  }

  /** The new file is, line for line as the loader takes them, the old one rewritten. */
  predicate LineWise(table: seq<Section>, batch: seq<Pair>, t: string) {
    AsLoaded(table, NewText(table, batch, t)) == Rewritten(Orders(table, Clamped(batch)), AsLoaded(table, t))
  }

  // ------------------------------------------------------------------
  // Copying a line

  lemma {:induction false} CopySplits(table: seq<Section>, batch: seq<Order>, l: string, rest: string, c: Copy)
    requires Single(l) && (rest == "" || Ended(l)) && |c.done| == |batch|
    ensures CopyAll(table, batch, l + rest, c) == CopyAll(table, batch, rest, CopyAll(table, batch, l, c))
    decreases |l|
  {
    SingleLength(l, rest);
    SingleLength(l, "");
    assert l + "" == l;
    if |l| < LINE_BUF {
      ChunkStep(table, batch, l, "", c);
      ChunkStep(table, batch, l, rest, c);
    } else {
      var head, tail := l[..LINE_BUF - 1], l[LINE_BUF - 1..];
      var d := CopyLine(batch, Read(table, head), c);
      assert l == head + tail && l + rest == head + (tail + rest);
      ChunkStep(table, batch, head, tail, c);
      ChunkStep(table, batch, head, tail + rest, c);
      TailIsSingle(l, LINE_BUF - 1);
      CopySplits(table, batch, tail, rest, d);
    }
  }

  lemma {:induction false} TailIsSingle(l: string, n: nat)
    requires Single(l) && n < |l|
    ensures Single(l[n..]) && Ended(l[n..]) == Ended(l) && Closed(l) == l[..n] + Closed(l[n..])
    ensures 0 < n ==> !Ended(l[..n])
  {
    var r := l[n..];
    assert r[..|r| - 1] == l[n..|l| - 1];
    assert l == l[..n] + r;
    if 0 < n { assert l[n - 1] in l[..|l| - 1]; }
    Associate(l[..n], r, "\n");
  }

  lemma {:induction false} CopyOne(table: seq<Section>, batch: seq<Order>, l: string, c: Copy)
    requires Single(l) && |l| < LINE_BUF && |c.done| == |batch|
    ensures CopyAll(table, batch, l, c) == CopyLine(batch, Read(table, l), c)
    ensures ChunkLength(l) == |l|
  {
    SingleLength(l, "");
    assert l + "" == l;
    ChunkStep(table, batch, l, "", c);
  }

  /** A long line is its first buffer's worth and what follows. */
  lemma {:induction false} CopyHead(table: seq<Section>, batch: seq<Order>, l: string, c: Copy) returns (head: string, tail: string, d: Copy)
    requires Single(l) && |l| >= LINE_BUF && |c.done| == |batch|
    ensures head == l[..LINE_BUF - 1] && tail == l[LINE_BUF - 1..] && l == head + tail && Single(tail)
    ensures d == CopyLine(batch, Read(table, head), c) && |d.done| == |batch|
    ensures CopyAll(table, batch, l, c) == CopyAll(table, batch, tail, d)
    ensures Closed(l) == head + Closed(tail) && !Ended(head) && Ended(tail) == Ended(l)
    ensures SomeClaimed(table, batch, l) <==> Claim(batch, Read(table, head)) < |batch| || SomeClaimed(table, batch, tail)
  {
    head, tail := l[..LINE_BUF - 1], l[LINE_BUF - 1..];
    d := CopyLine(batch, Read(table, head), c);
    SingleLength(l, "");
    assert l + "" == l && l == head + tail;
    ChunkStep(table, batch, head, tail, c);
    TailIsSingle(l, LINE_BUF - 1);
  }

  lemma {:induction false} OneClaimed(table: seq<Section>, batch: seq<Order>, l: string)
    requires Single(l) && |l| < LINE_BUF
    ensures SomeClaimed(table, batch, l) <==> Claim(batch, Read(table, l)) < |batch|
  {
    SingleLength(l, "");
    assert l + "" == l && l[..|l|] == l && l[|l|..] == "";
  }

  /** A line no part of which is claimed is copied. */
  lemma {:induction false} CopyUnclaimed(table: seq<Section>, batch: seq<Order>, l: string, c: Copy)
    requires Single(l) && |c.done| == |batch| && !SomeClaimed(table, batch, l)
    ensures CopyAll(table, batch, l, c) == Copy(c.out + l, c.done, Ended(l))
    decreases |l|
  {
    if |l| < LINE_BUF {
      CopyOne(table, batch, l, c);
      OneClaimed(table, batch, l);
      CopyLineIs(batch, Read(table, l), c);
    } else {
      var head, tail, d := CopyHead(table, batch, l, c);
      CopyLineIs(batch, Read(table, head), c);
      CopyUnclaimed(table, batch, tail, d);
      Associate(c.out, head, tail);
    }
  }

  // ------------------------------------------------------------------
  // Without a claimed part the new text is the line-wise one

  /** What the loop has put out, its last line ended. */
  function Put(c: Copy): string {
    c.out + (if c.ended then "" else "\n")
  }

  /** One physical line of the file. */
  lemma {:induction false} LineMeans(table: seq<Section>, batch: seq<Order>, l: string, c: Copy)
    requires Single(l) && |c.done| == |batch| && (|l| >= LINE_BUF ==> !SomeClaimed(table, batch, l))
    ensures var r, e := CopyAll(table, batch, l, c), Taken(table, l);
            && Put(r) == c.out + Join(Replaced(batch, e, c.done)) && r.done == Marked(batch, e, c.done)
            && (Ended(l) ==> r.ended)
  {
    var e := Taken(table, l);
    JoinOne(e);
    if |l| < LINE_BUF {
      CopyOne(table, batch, l, c);
      CopyLineIs(batch, Read(table, l), c);
      ReplacedText(batch, e, c.done);
    } else {
      CopyUnclaimed(table, batch, l, c);
    }
    Associate(c.out, l, "\n");
    assert forall s: string :: s + "" == s;
  }

  lemma {:induction false} ReplacedText(batch: seq<Order>, e: Entry, done: seq<bool>)
    requires |done| == |batch|
    ensures var i := Claim(batch, e);
            Join(Replaced(batch, e, done)) ==
            if i == |batch| then e.text else if done[i] then "" else batch[i].line.text
    ensures Claim(batch, e) < |batch| && done[Claim(batch, e)] ==> Marked(batch, e, done) == done
  {
    var i := Claim(batch, e);
    JoinOne(e);
    if i < |batch| {
      JoinOne(batch[i].line);
      if done[i] { assert done[i := true] == done; }
    }
  }

  lemma {:induction false} LongClaimedCons(table: seq<Section>, batch: seq<Order>, l: string, rest: string)
    requires Single(l) && (rest == "" || Ended(l))
    ensures LongClaimed(table, batch, l + rest) <==>
            (|l| >= LINE_BUF && SomeClaimed(table, batch, l)) || LongClaimed(table, batch, rest)
  {
    SingleLength(l, rest);
    assert (l + rest)[..|l|] == l && (l + rest)[|l|..] == rest;
  }

  lemma {:induction false} BodyStep(batch: seq<Order>, e: Entry, es: seq<Entry>, done: seq<bool>)
    requires |done| == |batch|
    ensures var m := Marked(batch, e, done);
            && Done(batch, [e] + es, done) == Done(batch, es, m)
            && Join(Body(batch, [e] + es, done)) == Join(Replaced(batch, e, done)) + Join(Body(batch, es, m))
  {
    assert ([e] + es)[1..] == es;
    JoinConcat(Replaced(batch, e, done), Body(batch, es, Marked(batch, e, done)));
  }

  lemma {:induction false} CopyMeans(table: seq<Section>, batch: seq<Order>, t: string, c: Copy)
    requires t != "" && |c.done| == |batch| && !LongClaimed(table, batch, t)
    ensures var r, es := CopyAll(table, batch, t, c), AsLoaded(table, t);
            Put(r) == c.out + Join(Body(batch, es, c.done)) && r.done == Done(batch, es, c.done)
    decreases |t|
  {
    var l, rest := FirstLine(t);
    var e, d := Taken(table, l), CopyAll(table, batch, l, c);
    LongClaimedCons(table, batch, l, rest);
    AsLoadedCons(table, l, rest);
    CopySplits(table, batch, l, rest, c);
    LineMeans(table, batch, l, c);
    BodyStep(batch, e, AsLoaded(table, rest), c.done);
    if rest == "" {
      assert Join(Replaced(batch, e, c.done)) + "" == Join(Replaced(batch, e, c.done));
    } else {
      CopyMeans(table, batch, rest, d);
      assert Put(d) == d.out + "" == d.out;
      Associate(c.out, Join(Replaced(batch, e, c.done)), Join(Body(batch, AsLoaded(table, rest), d.done)));
    }
  }

  /** What the rewrite is meant to put out. */
  function Meant(table: seq<Section>, batch: seq<Order>, t: string): string {
    Join(Rewritten(batch, AsLoaded(table, t)))
  }

  lemma {:induction false} UnclaimedText(table: seq<Section>, batch: seq<Order>, t: string)
    requires !LongClaimed(table, batch, t)
    ensures Finished(batch, CopyAll(table, batch, t, Copy("", NoneDone(|batch|), true))) == Meant(table, batch, t)
  {
    var none := NoneDone(|batch|);
    var c := Copy("", none, true);
    var es := AsLoaded(table, t);
    JoinConcat(Body(batch, es, none), Missing(batch, Done(batch, es, none), 0));
    if t != "" {
      CopyMeans(table, batch, t, c);
      assert "" + Join(Body(batch, es, none)) == Join(Body(batch, es, none));
    }
  }

  // ------------------------------------------------------------------
  // With one it is shorter: every pair is put out exactly once either way, and the
  // claimed part is gone

  /** What the pairs not yet written will take. */
  function Owed(batch: seq<Order>, done: seq<bool>): nat
    requires |done| == |batch|
  {
    |Join(Missing(batch, done, 0))|
  }

  lemma {:induction false} OwedFrom(batch: seq<Order>, done: seq<bool>, i: nat, j: nat)
    requires |done| == |batch| && j <= |batch| && i < |batch| && !done[i]
    ensures |Join(Missing(batch, done, j))| ==
            |Join(Missing(batch, done[i := true], j))| + if j <= i then |batch[i].line.text| else 0
    decreases |batch| - j
  {
    if j < |batch| {
      OwedFrom(batch, done, i, j + 1);
      MissingLength(batch, done, j);
      MissingLength(batch, done[i := true], j);
    }
  }

  lemma {:induction false} MissingLength(batch: seq<Order>, done: seq<bool>, j: nat)
    requires |done| == |batch| && j < |batch|
    ensures |Join(Missing(batch, done, j))| ==
            |Join(Missing(batch, done, j + 1))| + if done[j] then 0 else |batch[j].line.text|
  {
    MissingFrom(batch, done, j, "");
  }

  /** Claimed or not, one entry. */
  lemma {:induction false} StepWeight(batch: seq<Order>, e: Entry, done: seq<bool>)
    requires |done| == |batch|
    ensures |Join(Replaced(batch, e, done))| + Owed(batch, Marked(batch, e, done)) ==
            Owed(batch, done) + if Claim(batch, e) == |batch| then |e.text| else 0
  {
    ReplacedText(batch, e, done);
    var i := Claim(batch, e);
    if i < |batch| && !done[i] { OwedFrom(batch, done, i, 0); }
  }

  lemma {:induction false} OthersCons(batch: seq<Order>, e: Entry, es: seq<Entry>)
    ensures |Join(Others(batch, [e] + es))| ==
            |Join(Others(batch, es))| + if Claim(batch, e) == |batch| then |e.text| else 0
  {
    OthersConcat(batch, [e], es);
    OthersOne(batch, e);
    JoinOne(e);
    JoinConcat(Others(batch, [e]), Others(batch, es));
  }

  lemma {:induction false} BodyWeight(batch: seq<Order>, es: seq<Entry>, done: seq<bool>)
    requires |done| == |batch|
    ensures |Join(Body(batch, es, done))| + Owed(batch, Done(batch, es, done)) ==
            Owed(batch, done) + |Join(Others(batch, es))|
    decreases |es|
  {
    if es != [] {
      var e, rest := es[0], es[1..];
      assert es == [e] + rest;
      BodyStep(batch, e, rest, done);
      StepWeight(batch, e, done);
      BodyWeight(batch, rest, Marked(batch, e, done));
      OthersCons(batch, e, rest);
    }
  }

  lemma {:induction false} MeantWeight(table: seq<Section>, batch: seq<Order>, t: string)
    ensures |Meant(table, batch, t)| ==
            Owed(batch, NoneDone(|batch|)) + |Join(Others(batch, AsLoaded(table, t)))|
  {
    var es, none := AsLoaded(table, t), NoneDone(|batch|);
    BodyWeight(batch, es, none);
    JoinConcat(Body(batch, es, none), Missing(batch, Done(batch, es, none), 0));
  }

  /** Put out or owed, without and with the newline that may be lacking. */
  function Held(batch: seq<Order>, c: Copy): nat
    requires |c.done| == |batch|
  {
    |c.out| + Owed(batch, c.done)
  }

  function Weight(batch: seq<Order>, c: Copy): nat
    requires |c.done| == |batch|
  {
    |Put(c)| + Owed(batch, c.done)
  }

  lemma {:induction false} CopyLineWeight(batch: seq<Order>, e: Entry, c: Copy)
    requires |c.done| == |batch|
    ensures var r := CopyLine(batch, e, c);
            && Held(batch, r) == Held(batch, c) + (if Claim(batch, e) == |batch| then |e.text| else 0)
            && r.ended == (Claim(batch, e) < |batch| || Ended(e.text))
  {
    StepWeight(batch, e, c.done);
  }

  lemma {:induction false} BoundIsTwo(l: string)
    requires KeyOf(l).Some? && Single(l)
    ensures |Closed(l)| >= 2
  {
    FindBound(Trim(l), '=', 0);
    if |l| == 1 && Ended(l) {
      assert l == "" + "\n";
      TrimIgnoresNewline("");
    }
  }

  /** A physical line: every claimed part of a long one is missing from the weight. */
  lemma {:induction false} LineWeight(table: seq<Section>, batch: seq<Order>, l: string, c: Copy)
    requires Single(l) && |c.done| == |batch|
    ensures var r := CopyAll(table, batch, l, c);
            && Weight(batch, r) + (if SomeClaimed(table, batch, l) then 2 else 0) <= Held(batch, c) + |Closed(l)|
    decreases |l|
  {
    if |l| < LINE_BUF {
      ShortWeight(table, batch, l, c);
      OneClaimed(table, batch, l);
      if KeyOf(l).Some? { BoundIsTwo(l); }
    } else {
      var head, tail, d := CopyHead(table, batch, l, c);
      CopyLineWeight(batch, Read(table, head), c);
      LineWeight(table, batch, tail, d);
    }
  }

  lemma {:induction false} ShortWeight(table: seq<Section>, batch: seq<Order>, l: string, c: Copy)
    requires Single(l) && |l| < LINE_BUF && |c.done| == |batch|
    ensures Weight(batch, CopyAll(table, batch, l, c)) ==
            Held(batch, c) + if Claim(batch, Read(table, l)) == |batch| then |Closed(l)| else 0
  {
    CopyOne(table, batch, l, c);
    CopyLineWeight(batch, Read(table, l), c);
  }

  lemma {:induction false} TakenWeight(table: seq<Section>, batch: seq<Order>, l: string, c: Copy)
    requires Single(l) && |c.done| == |batch|
    ensures var e := Taken(table, l);
            Weight(batch, CopyAll(table, batch, l, c)) + (if |l| >= LINE_BUF && SomeClaimed(table, batch, l) then 2 else 0)
            <= Held(batch, c) + if Claim(batch, e) == |batch| then |e.text| else 0
  {
    if |l| < LINE_BUF { ShortWeight(table, batch, l, c); } else { LineWeight(table, batch, l, c); }
  }

  lemma {:induction false} CopyWeight(table: seq<Section>, batch: seq<Order>, t: string, c: Copy)
    requires t != "" && |c.done| == |batch|
    ensures Weight(batch, CopyAll(table, batch, t, c)) + (if LongClaimed(table, batch, t) then 2 else 0)
            <= Held(batch, c) + |Join(Others(batch, AsLoaded(table, t)))|
    decreases |t|
  {
    var l, rest := FirstLine(t);
    var e, d := Taken(table, l), CopyAll(table, batch, l, c);
    LongClaimedCons(table, batch, l, rest);
    AsLoadedCons(table, l, rest);
    CopySplits(table, batch, l, rest, c);
    TakenWeight(table, batch, l, c);
    OthersCons(batch, e, AsLoaded(table, rest));
    if rest != "" { CopyWeight(table, batch, rest, d); }
  }

  /** A claimed part of a long line is lost from the file. */
  lemma {:induction false} LongClaimLoses(table: seq<Section>, batch: seq<Order>, t: string)
    requires LongClaimed(table, batch, t)
    ensures var u := Finished(batch, CopyAll(table, batch, t, Copy("", NoneDone(|batch|), true)));
            |u| + 2 <= |Meant(table, batch, t)|
  {
    var c := Copy("", NoneDone(|batch|), true);
    CopyWeight(table, batch, t, c);
    MeantWeight(table, batch, t);
  }

  // ------------------------------------------------------------------
  // Loading the line-wise text

  /** What loading the entry's text again gives. */
  function Again(table: seq<Section>, e: Entry): Entry {
    Taken(table, e.text)
  }

  function AllAgain(table: seq<Section>, es: seq<Entry>): seq<Entry> {
    if es == [] then [] else [Again(table, es[0])] + AllAgain(table, es[1..])
  }

  predicate AllWhole(es: seq<Entry>) {
    forall i :: 0 <= i < |es| ==> Whole(es[i].text)
  }

  lemma {:induction false} AllWholeTail(es: seq<Entry>)
    requires AllWhole(es) && es != []
    ensures Whole(es[0].text) && AllWhole(es[1..])
  {}

  lemma {:induction false} JoinLoads(table: seq<Section>, es: seq<Entry>)
    requires AllWhole(es)
    ensures AsLoaded(table, Join(es)) == AllAgain(table, es)
  {
    if es != [] {
      AllWholeTail(es);
      JoinLoads(table, es[1..]);
      AsLoadedCons(table, es[0].text, Join(es[1..]));
    }
  }

  lemma {:induction false} AsLoadedWhole(table: seq<Section>, t: string)
    ensures AllWhole(AsLoaded(table, t)) && Join(AsLoaded(table, t)) == Closed(t)
    decreases |t|
  {
    if t != "" {
      var l, rest := FirstLine(t);
      AsLoadedWhole(table, rest);
      AsLoadedCons(table, l, rest);
      ClosedIsWhole(l);
      if rest == "" {
        assert l + "" == l;
      } else {
        ClosedConcat(l, rest);
      }
    }
  }

  lemma {:induction false} ClosedIsWhole(l: string)
    requires Single(l)
    ensures Whole(Closed(l))
  {
    if !Ended(l) { assert (l + "\n")[..|l|] == l == l[..|l| - 1] + [l[|l| - 1]]; }
  }

  lemma {:induction false} ClosedConcat(l: string, rest: string)
    requires rest != "" && Ended(l)
    ensures Closed(l + rest) == l + Closed(rest) && Closed(l) == l
  {
    Associate(l, rest, "\n");
  }

  predicate OrdersStand(table: seq<Section>, batch: seq<Order>) {
    forall j :: 0 <= j < |batch| ==> Whole(batch[j].line.text) && Again(table, batch[j].line) == batch[j].line
  }

  lemma {:induction false} AgainConcat(table: seq<Section>, a: seq<Entry>, b: seq<Entry>)
    ensures AllAgain(table, a + b) == AllAgain(table, a) + AllAgain(table, b)
  {
    if a == [] {
      assert a + b == b;
    } else {
      assert (a + b)[1..] == a[1..] + b;
      AgainConcat(table, a[1..], b);
    }
  }

  lemma {:induction false} AgainLength(table: seq<Section>, es: seq<Entry>)
    ensures |AllAgain(table, es)| == |es|
  {
    if es != [] { AgainLength(table, es[1..]); }
  }

  lemma {:induction false} AgainOne(table: seq<Section>, e: Entry)
    ensures AllAgain(table, [e]) == [Again(table, e)]
  {
    assert [e][1..] == [];
  }

  /** The lines reload as they are. */
  predicate Stand(table: seq<Section>, es: seq<Entry>) {
    AllAgain(table, es) == es
  }

  lemma {:induction false} StandConcat(table: seq<Section>, a: seq<Entry>, b: seq<Entry>)
    ensures Stand(table, a + b) <==> Stand(table, a) && Stand(table, b)
  {
    AgainConcat(table, a, b);
    AgainLength(table, a);
    if Stand(table, a + b) {
      var x, y := AllAgain(table, a), AllAgain(table, b);
      assert x == (x + y)[..|a|] == (a + b)[..|a|] == a;
      assert y == (x + y)[|a|..] == (a + b)[|a|..] == b;
    }
  }

  lemma {:induction false} StepStands(table: seq<Section>, batch: seq<Order>, e: Entry, done: seq<bool>)
    requires OrdersStand(table, batch) && |done| == |batch| && Whole(e.text)
    ensures AllWhole(Replaced(batch, e, done))
    ensures Stand(table, Replaced(batch, e, done)) <==> Stand(table, Others(batch, [e]))
  {
    OthersOne(batch, e);
    var i := Claim(batch, e);
    if i < |batch| { AgainOne(table, batch[i].line); }
  }

  /** After the rewrite the lines stand exactly when the untouched ones do. */
  lemma {:induction false} BodyStands(table: seq<Section>, batch: seq<Order>, es: seq<Entry>, done: seq<bool>)
    requires OrdersStand(table, batch) && |done| == |batch| && AllWhole(es)
    ensures AllWhole(Body(batch, es, done))
    ensures Stand(table, Body(batch, es, done)) <==> Stand(table, Others(batch, es))
    decreases |es|
  {
    if es != [] {
      var e, rest, m := es[0], es[1..], Marked(batch, es[0], done);
      AllWholeTail(es);
      BodyStands(table, batch, rest, m);
      StepStands(table, batch, e, done);
      StandConcat(table, Replaced(batch, e, done), Body(batch, rest, m));
      assert es == [e] + rest;
      OthersConcat(batch, [e], rest);
      StandConcat(table, Others(batch, [e]), Others(batch, rest));
    }
  }

  lemma {:induction false} MissingStands(table: seq<Section>, batch: seq<Order>, done: seq<bool>, j: nat)
    requires OrdersStand(table, batch) && |done| == |batch| && j <= |batch|
    ensures AllWhole(Missing(batch, done, j)) && Stand(table, Missing(batch, done, j))
    decreases |batch| - j
  {
    if j < |batch| {
      MissingStands(table, batch, done, j + 1);
      AgainOne(table, batch[j].line);
      StandConcat(table, if done[j] then [] else [batch[j].line], Missing(batch, done, j + 1));
    }
  }

  lemma {:induction false} RewrittenStands(table: seq<Section>, batch: seq<Order>, es: seq<Entry>)
    requires OrdersStand(table, batch) && AllWhole(es)
    ensures AllWhole(Rewritten(batch, es))
    ensures Stand(table, Rewritten(batch, es)) <==> Stand(table, Others(batch, es))
  {
    var none := NoneDone(|batch|);
    var body, done := Body(batch, es, none), Done(batch, es, none);
    BodyStands(table, batch, es, none);
    MissingStands(table, batch, done, 0);
    StandConcat(table, body, Missing(batch, done, 0));
  }

  /** A line the batch leaves alone reloads as it was, unless it is last, not ended, a
      setting and just fits. */
  lemma {:induction false} TakenStands(table: seq<Section>, l: string)
    requires Single(l)
    ensures Again(table, Taken(table, l)) == Taken(table, l) <==>
            !(!Ended(l) && |l| == LINE_BUF - 1 && KeyOf(l).Some?)
  {
    ClosedIsWhole(l);
    if !Ended(l) { NewlineIsNothing(table, l); }
  }

  lemma {:induction false} FullLastCons(table: seq<Section>, batch: seq<Order>, l: string, rest: string)
    requires Single(l) && (rest == "" || Ended(l))
    ensures rest != "" ==> (FullLast(table, batch, l + rest) <==> FullLast(table, batch, rest))
    ensures rest == "" ==> LastLine(l + rest) == l
  {
    SingleLength(l, rest);
    assert (l + rest)[|l|..] == rest && l + "" == l;
  }

  lemma {:induction false} OthersStand(table: seq<Section>, batch: seq<Order>, t: string)
    ensures Stand(table, Others(batch, AsLoaded(table, t))) <==> !FullLast(table, batch, t)
    decreases |t|
  {
    if t != "" {
      var l, rest := FirstLine(t);
      var e := Taken(table, l);
      OthersStand(table, batch, rest);
      AsLoadedCons(table, l, rest);
      FullLastCons(table, batch, l, rest);
      OthersConcat(batch, [e], AsLoaded(table, rest));
      OthersOne(batch, e);
      AgainOne(table, e);
      StandConcat(table, Others(batch, [e]), Others(batch, AsLoaded(table, rest)));
      TakenStands(table, l);
    }
  }

  // ------------------------------------------------------------------
  // The whole rewrite

  /** What the caller owes for a pair: a key that can be written, whose canonical spelling
      fits its buffer and whose line fits the loader's. */
  predicate Writable(table: seq<Section>, p: Pair) {
    && Clean(p.key) && '\n' !in p.key
    && |Canonical(table, p.key)| < CANON_CAP - 1
    && |Line(p.key, p.val)| < LINE_BUF
  }

  lemma {:induction false} WritableIsProper(table: seq<Section>, p: Pair)
    requires Writable(table, p)
    ensures Proper(OrderOf(table, p)) && Sane(table, OrderOf(table, p).line)
    ensures OrderOf(table, p).line.bound == Some(Setting(Canonical(table, p.key), Folded(p.val)))
  {
    CleanRoundTrip(p.key, p.val);
    LineIsWhole(p.key, p.val);
  }

  lemma {:induction false} LineIsWhole(k: string, v: string)
    requires '\n' !in k
    ensures Whole(Line(k, v))
  {
    FoldedIs(v);
    var l, q := Line(k, v), Quoted(Folded(v));
    assert l[..|l| - 1] == k + " = " + q;
  }

  /** What the batch gives a key: its last pair wins. */
  function LastPair(table: seq<Section>, batch: seq<Pair>, c: string): Option<string> {
    if batch == [] then None
    else if Canonical(table, batch[|batch| - 1].key) == c then Some(Folded(batch[|batch| - 1].val))
    else LastPair(table, batch[..|batch| - 1], c)
  }

  /** The order is what the pair amounts to. */
  predicate Renders(table: seq<Section>, p: Pair, o: Order) {
    o.canon == Canonical(table, p.key) && o.line.bound == Some(Setting(o.canon, Folded(p.val)))
  }

  lemma {:induction false} GivenIsLastPair(table: seq<Section>, batch: seq<Pair>, orders: seq<Order>, c: string)
    requires |orders| == |batch| && forall j :: 0 <= j < |batch| ==> Renders(table, batch[j], orders[j])
    ensures Given(orders, c) == LastPair(table, batch, c)
    decreases |batch|
  {
    if batch != [] {
      var n := |batch| - 1;
      assert Renders(table, batch[n], orders[n]);
      forall j | 0 <= j < n ensures Renders(table, batch[..n][j], orders[..n][j]) {
        assert Renders(table, batch[j], orders[j]);
      }
      GivenIsLastPair(table, batch[..n], orders[..n], c);
    }
  }

  lemma {:induction false} OrdersAreProper(table: seq<Section>, pairs: seq<Pair>, c: string)
    requires forall j :: 0 <= j < |pairs| ==> Writable(table, pairs[j])
    ensures var orders := Orders(table, pairs);
            AllProper(orders) && OrdersStand(table, orders) && Given(orders, c) == LastPair(table, pairs, c)
  {
    var orders := Orders(table, pairs);
    forall j | 0 <= j < |orders|
      ensures Proper(orders[j]) && Sane(table, orders[j].line) && Renders(table, pairs[j], orders[j])
    {
      OrderAt(table, pairs, j);
      WritableIsProper(table, pairs[j]);
    }
    GivenIsLastPair(table, pairs, orders, c);
  }

  /** The exact form, for any orders whose lines stand. */
  lemma {:induction false} LineWiseIff(table: seq<Section>, batch: seq<Order>, t: string, u: string)
    requires OrdersStand(table, batch)
    requires u == Finished(batch, CopyAll(table, batch, t, Copy("", NoneDone(|batch|), true)))
    ensures AsLoaded(table, u) == Rewritten(batch, AsLoaded(table, t)) <==>
            !LongClaimed(table, batch, t) && !FullLast(table, batch, t)
  {
    var es := AsLoaded(table, t);
    AsLoadedWhole(table, t);
    RewrittenStands(table, batch, es);
    OthersStand(table, batch, t);
    JoinLoads(table, Rewritten(batch, es));
    if LongClaimed(table, batch, t) {
      LongClaimLoses(table, batch, t);
      AsLoadedWhole(table, u);
    } else {
      UnclaimedText(table, batch, t);
    }
  }

  /** For every file and every batch of writable pairs the new file is, line for line as the
      loader takes them, the old one rewritten, if and only if no part of a line the loader
      drops reads like a setting of the batch and the file does not end in an unended
      setting of another key that just fills the buffer. Then loading it gives the old
      settings overridden by the batch, and every other line, the dropped ones included,
      keeps its text, its place and what the loader takes from it. */
  lemma {:induction false} RewriteFile(table: seq<Section>, batch: seq<Pair>, t: string, c: string)
    requires forall j :: 0 <= j < |Clamped(batch)| ==> Writable(table, Clamped(batch)[j])
    ensures var orders := Orders(table, Clamped(batch));
            LineWise(table, batch, t) <==> !LongClaimed(table, orders, t) && !FullLast(table, orders, t)
    ensures var pairs, u := Clamped(batch), NewText(table, batch, t);
            LineWise(table, batch, t) ==>
              && Loaded(ReadAll(table, Parsed(u)), c) ==
                 (if LastPair(table, pairs, c).Some? then LastPair(table, pairs, c) else Loaded(ReadAll(table, Parsed(t)), c))
              && Others(Orders(table, pairs), AsLoaded(table, u)) == Others(Orders(table, pairs), AsLoaded(table, t))
  {
    var pairs, u := Clamped(batch), NewText(table, batch, t);
    var orders := Orders(table, pairs);
    OrdersAreProper(table, pairs, c);
    LineWiseIff(table, orders, t, u);
    RewriteMeans(orders, AsLoaded(table, t), c);
    RewriteKeepsOthers(orders, AsLoaded(table, t));
    LoadedIsParsed(table, t, c);
    LoadedIsParsed(table, u, c);
  }

  /** Ending an unended last line changes nothing in the rewrite but the newline it adds
      anyway, unless that last line is a setting that just fills the buffer. */
  lemma {:induction false} ClosingCopies(table: seq<Section>, batch: seq<Pair>, t: string)
    requires !FullLast(table, [], t)
    requires var orders := Orders(table, Clamped(batch));
             !LongClaimed(table, orders, t) && !LongClaimed(table, orders, Closed(t))
    ensures NewText(table, batch, t) == NewText(table, batch, Closed(t))
  {
    var orders := Orders(table, Clamped(batch));
    AsLoadedWhole(table, t);
    JoinLoads(table, AsLoaded(table, t));
    OthersStand(table, [], t);
    AllOthers(AsLoaded(table, t));
    UnclaimedText(table, orders, t);
    UnclaimedText(table, orders, Closed(t));
  }

  lemma {:induction false} AllOthers(es: seq<Entry>)
    ensures Others([], es) == es
  {
    if es != [] { AllOthers(es[1..]); }
  }

  // ------------------------------------------------------------------
  // What is lost where the condition fails

  lemma {:induction false} LoadedSnoc(table: seq<Section>, p: string, l: string)
    requires Ended(p) && Single(l)
    ensures LastLine(p + l) == l && AsLoaded(table, p + l) == AsLoaded(table, p) + [Taken(table, l)]
    decreases |p|
  {
    if p == "" {
      assert p + l == l && l + "" == l;
      FullLastCons(table, [], l, "");
      AsLoadedCons(table, l, "");
    } else {
      var a, q := FirstLine(p);
      assert Ended(a) && Ended(q) by { assert p == a + q; }
      assert p + l == a + (q + l);
      LoadedSnoc(table, q, l);
      LastCons(a, q + l);
      AsLoadedCons(table, a, q + l);
      Associate([Taken(table, a)], AsLoaded(table, q), [Taken(table, l)]);
    }
  }

  lemma {:induction false} LastCons(l: string, rest: string)
    requires Single(l) && Ended(l) && rest != ""
    ensures LastLine(l + rest) == LastLine(rest)
  {
    SingleLength(l, rest);
    assert (l + rest)[|l|..] == rest;
  }

  lemma {:induction false} BodyFirst(batch: seq<Order>, e: Entry, es: seq<Entry>, done: seq<bool>)
    requires |done| == |batch|
    ensures var m := Marked(batch, e, done);
            && Body(batch, [e] + es, done) == Replaced(batch, e, done) + Body(batch, es, m)
            && Done(batch, [e] + es, done) == Done(batch, es, m)
  {
    assert ([e] + es)[1..] == es;
  }

  lemma {:induction false} BodySnoc(batch: seq<Order>, es: seq<Entry>, e: Entry, done: seq<bool>)
    requires |done| == |batch| && Claim(batch, e) == |batch|
    ensures Body(batch, es + [e], done) == Body(batch, es, done) + [e]
    ensures Done(batch, es + [e], done) == Done(batch, es, done)
    decreases |es|
  {
    if es == [] {
      BodyFirst(batch, e, [], done);
      assert [] + [e] == [e] + [] == [e];
    } else {
      var x, xs := es[0], es[1..];
      var m := Marked(batch, x, done);
      assert es == [x] + xs && es + [e] == [x] + (xs + [e]);
      BodySnoc(batch, xs, e, m);
      BodyFirst(batch, x, xs, done);
      BodyFirst(batch, x, xs + [e], done);
      Associate(Replaced(batch, x, done), Body(batch, xs, m), [e]);
    }
  }

  /** A last line that no longer reads as it did takes its setting with it. */
  lemma {:induction false} LastLineReloads(table: seq<Section>, batch: seq<Order>, es: seq<Entry>, e: Entry)
    requires OrdersStand(table, batch) && AllWhole(es) && Whole(e.text)
    requires Stand(table, Others(batch, es)) && Claim(batch, e) == |batch| && Again(table, e).bound.None?
    ensures AsLoaded(table, Join(Rewritten(batch, es + [e]))) == Rewritten(batch, es + [Again(table, e)])
  {
    var none := NoneDone(|batch|);
    var body, rest := Body(batch, es, none), Missing(batch, Done(batch, es, none), 0);
    BodySnoc(batch, es, e, none);
    BodySnoc(batch, es, Again(table, e), none);
    BodyStands(table, batch, es, none);
    MissingStands(table, batch, Done(batch, es, none), 0);
    JoinLoads(table, body + [e] + rest);
    AgainConcat(table, body + [e], rest);
    AgainConcat(table, body, [e]);
    AgainOne(table, e);
  }

  lemma {:induction false} UnclaimedIsNotGiven(batch: seq<Order>, e: Entry)
    requires AllProper(batch) && e.bound.Some? && Claim(batch, e) == |batch|
    ensures Given(batch, e.bound.value.canon).None?
  {
    FirstIsIndex(batch, e.bound.value, 0);
    var j := GivenIs(batch, e.bound.value.canon);
  }

  /** An unended last line that just fills the buffer is read, and after a rewrite of other
      keys has ended it it no longer is: its key falls back to what the lines before it
      say. */
  lemma {:induction false} FullLastLineIsLost(table: seq<Section>, batch: seq<Pair>, p: string, l: string)
    requires forall j :: 0 <= j < |Clamped(batch)| ==> Writable(table, Clamped(batch)[j])
    requires Ended(p) && |l| == LINE_BUF - 1 && '\n' !in l && KeyOf(l).Some?
    requires var orders := Orders(table, Clamped(batch));
             Claim(orders, Read(table, l)) == |orders| && !LongClaimed(table, orders, p + l)
    ensures var c := Canonical(table, KeyOf(l).value);
            && Loaded(ReadAll(table, Parsed(p + l)), c) == Some(ValueOf(l))
            && Loaded(ReadAll(table, Parsed(NewText(table, batch, p + l))), c) == Loaded(ReadAll(table, Parsed(p)), c)
  {
    var orders, u := Orders(table, Clamped(batch)), NewText(table, batch, p + l);
    var c := Canonical(table, KeyOf(l).value);
    var es, e := AsLoaded(table, p), Taken(table, l);
    OrdersAreProper(table, Clamped(batch), c);
    LoadedSnoc(table, p, l);
    UnclaimedText(table, orders, p + l);
    AsLoadedWhole(table, p);
    ClosedIsWhole(l);
    OthersStand(table, orders, p);
    EndedIsNotFull(table, orders, p);
    LastLineReloads(table, orders, es, e);
    RewriteMeans(orders, es + [Again(table, e)], c);
    UnclaimedIsNotGiven(orders, e);
    FallsBack(es, e, Again(table, e), c);
    LoadedIsParsed(table, p + l, c);
    LoadedIsParsed(table, u, c);
    LoadedIsParsed(table, p, c);
  }

  lemma {:induction false} FallsBack(es: seq<Entry>, e: Entry, f: Entry, c: string)
    requires Binds(e, c) && f.bound.None?
    ensures Loaded(es + [e], c) == Some(e.bound.value.value) && Loaded(es + [f], c) == Loaded(es, c)
  {
    LoadedConcat(es, [e], c);
    LoadedConcat(es, [f], c);
    LoadedOne(e, c);
    LoadedOne(f, c);
  }

  lemma {:induction false} EndedIsNotFull(table: seq<Section>, batch: seq<Order>, t: string)
    requires Ended(t)
    ensures !FullLast(table, batch, t)
    decreases |t|
  {
    if t != "" {
      var l, rest := FirstLine(t);
      FullLastCons(table, batch, l, rest);
      EndedIsNotFull(table, batch, rest);
    }
  }

  lemma {:induction false} LengthAfter(p: string, l: string)
    requires '\n' !in p
    ensures LineLength(p + l) == |p| + LineLength(l)
  {
    if p == "" {
      assert p + l == l;
    } else {
      assert (p + l)[1..] == p[1..] + l;
      LengthAfter(p[1..], l);
    }
  }

  lemma {:induction false} LongLineIsDropped(head: string, tail: string)
    requires |head| == LINE_BUF - 1 && '\n' !in head && Whole(tail)
    ensures ChunkLength(head + tail) == |head| && Parsed(head + tail) == []
  {
    assert tail + "" == tail;
    WholeLength(tail, "");
    LengthAfter(head, tail);
    assert (head + tail)[|head + tail|..] == "";
  }

  /** The other way it fails: a line too long for the buffer is one line to the loader,
      which drops it, but two to the rewrite. If its second part reads like a setting of
      the batch, the setting is written there, into the line the loader drops. */
  lemma {:induction false} LongLineSwallowsPair(table: seq<Section>, p: Pair, head: string, tail: string)
    requires |head| == LINE_BUF - 1 && '\n' !in head && KeyOf(head).None?
    requires Whole(tail) && |tail| < LINE_BUF && KeyOf(tail) == Some(p.key) && '\n' !in p.key
    ensures var u := NewText(table, [p], head + tail);
            u == head + Line(p.key, p.val) && Parsed(u) == []
  {
    var orders, start := Orders(table, [p]), Copy("", NoneDone(1), true);
    LongLineIsDropped(head, tail);
    ChunkStep(table, orders, head, tail, start);
    Passes(table, orders, head, start);
    LongTail(table, p, tail, Copy(head, NoneDone(1), false));
    LineIsWhole(p.key, p.val);
    LongLineIsDropped(head, Line(p.key, p.val));
  }

  lemma {:induction false} Passes(table: seq<Section>, batch: seq<Order>, head: string, c: Copy)
    requires KeyOf(head).None? && |c.done| == |batch| && c.out == "" && !Ended(head)
    ensures CopyLine(batch, Read(table, head), c) == Copy(head, c.done, false)
  {
    CopyLineIs(batch, Read(table, head), c);
    assert "" + head == head;
  }

  lemma {:induction false} LongTail(table: seq<Section>, p: Pair, tail: string, c: Copy)
    requires Whole(tail) && |tail| < LINE_BUF && KeyOf(tail) == Some(p.key) && c.done == NoneDone(1)
    ensures var orders := Orders(table, [p]);
            Finished(orders, CopyAll(table, orders, tail, c)) == c.out + Line(p.key, p.val)
  {
    assert tail + "" == tail;
    WholeLength(tail, "");
    ChunkStep(table, Orders(table, [p]), tail, "", c);
    OneOrder(table, p, tail, c);
  }

  lemma {:induction false} OneOrder(table: seq<Section>, p: Pair, line: string, c: Copy)
    requires KeyOf(line) == Some(p.key) && c.done == NoneDone(1)
    ensures var orders := Orders(table, [p]);
            Finished(orders, CopyLine(orders, Read(table, line), c)) == c.out + Line(p.key, p.val)
  {
    var orders := Orders(table, [p]);
    OrderAt(table, [p], 0);
    CopyLineIs(orders, Read(table, line), c);
    assert First(orders, Read(table, line).bound.value, 0) == 0;
    var r := CopyLine(orders, Read(table, line), c);
    assert Missing(orders, r.done, 0) == [];
    assert r.out + "" + "" == r.out;
  }
}
