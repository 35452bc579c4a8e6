/** The configuration file of src/config.c as text: the rewrite goes through it a buffer
    at a time, and the loader reads the result back line by line.
  */
module ConfigText {
  import opened ConfigLine
  import opened ConfigFile

  const LINE_BUF: nat := 512
  const MAX_KEYS: nat := 64

  /** The length of the first physical line, with its newline. */
  function LineLength(t: string): (n: nat)
    ensures n <= |t| && (t != "" ==> 0 < n)
  {
    if t == "" then 0 else if t[0] == '\n' then 1 else 1 + LineLength(t[1..])
  }

  /** How much one read into the line buffer takes. */
  function ChunkLength(t: string): (n: nat)
    ensures n <= |t| && (t != "" ==> 0 < n)
  {
    if LineLength(t) < LINE_BUF then LineLength(t) else LINE_BUF - 1
  }

  /** The lines config_load parses: one longer than the buffer is dropped, unless it is the
      file's last and just fits. */
  function Parsed(t: string): seq<string> {
    if t == "" then []
    else
      var n := ChunkLength(t);
      if n == LINE_BUF - 1 && t[n - 1] != '\n' && n < |t| then Parsed(t[LineLength(t)..])
      else [t[..n]] + Parsed(t[n..])
  }

  function ReadAll(table: seq<Section>, lines: seq<string>): seq<Entry> {
    if lines == [] then [] else [Read(table, lines[0])] + ReadAll(table, lines[1..])
  }

  function Orders(table: seq<Section>, batch: seq<Pair>): (r: seq<Order>)
    ensures |r| == |batch|
  {
    if batch == [] then [] else [OrderOf(table, batch[0])] + Orders(table, batch[1..])
  }

  lemma {:induction false} OrderAt(table: seq<Section>, batch: seq<Pair>, i: nat)
    requires i < |batch|
    ensures Orders(table, batch)[i] == OrderOf(table, batch[i])
  {
    if i > 0 { OrderAt(table, batch[1..], i - 1); }
  }

  // ------------------------------------------------------------------
  // The rewrite

  /** What has been put out so far, which pairs have been written, and whether the output
      ends a line. */
  datatype Copy = Copy(out: string, done: seq<bool>, ended: bool)

  predicate Ended(t: string) { t == "" || t[|t| - 1] == '\n' }

  function Join(es: seq<Entry>): string {
    if es == [] then "" else es[0].text + Join(es[1..])
  }

  function CopyLine(batch: seq<Order>, e: Entry, c: Copy): (r: Copy)
    requires |c.done| == |batch|
    ensures |r.done| == |batch|
  {
    Copy(c.out + Join(Replaced(batch, e, c.done)), Marked(batch, e, c.done), Claim(batch, e) < |batch| || Ended(e.text))
  }

  /** The copying loop: one chunk after the other. */
  function CopyAll(table: seq<Section>, batch: seq<Order>, t: string, c: Copy): (r: Copy)
    requires |c.done| == |batch|
    ensures |r.done| == |batch|
    decreases |t|
  {
    if t == "" then c
    else CopyAll(table, batch, t[ChunkLength(t)..], CopyLine(batch, Read(table, t[..ChunkLength(t)]), c))
  }

  function Finished(batch: seq<Order>, c: Copy): string
    requires |c.done| == |batch|
  {
    c.out + (if c.ended then "" else "\n") + Join(Missing(batch, c.done, 0))
  }

  /** Pairs past the limit are not persisted. */
  function Clamped(batch: seq<Pair>): seq<Pair> {
    if |batch| <= MAX_KEYS then batch else batch[..MAX_KEYS]
  }

  /** The whole new file. */
  function NewText(table: seq<Section>, batch: seq<Pair>, t: string): string {
    var orders := Orders(table, Clamped(batch));
    Finished(orders, CopyAll(table, orders, t, Copy("", NoneDone(|orders|), true)))
  }

  // ------------------------------------------------------------------
  // Physical lines

  lemma {:induction false} LineEnds(t: string)
    requires t != ""
    ensures LineLength(t) < |t| ==> t[LineLength(t) - 1] == '\n'
    ensures forall i :: 0 <= i < LineLength(t) - 1 ==> t[i] != '\n'
  {
    if t[0] != '\n' && |t| > 1 { LineEnds(t[1..]); }
  }

  /** A physical line with its newline. */
  predicate Whole(l: string) {
    l != "" && l[|l| - 1] == '\n' && '\n' !in l[..|l| - 1]
  }

  lemma {:induction false} WholeLength(l: string, rest: string)
    requires Whole(l)
    ensures LineLength(l + rest) == |l|
    decreases |l|
  {
    if |l| > 1 {
      assert l[0] in l[..|l| - 1];
      assert (l + rest)[1..] == l[1..] + rest;
      assert l[1..][..|l| - 2] == l[1..|l| - 1];
      WholeLength(l[1..], rest);
    }
  }

  /** Read from a whole line that fits the buffer. */
  predicate Sane(table: seq<Section>, e: Entry) {
    Whole(e.text) && |e.text| < LINE_BUF && e == Read(table, e.text)
  }

  lemma ReadAllCons(table: seq<Section>, l: string, rest: seq<string>)
    ensures ReadAll(table, [l] + rest) == [Read(table, l)] + ReadAll(table, rest)
  {
    assert ([l] + rest)[1..] == rest;
  }

  lemma {:induction false} JoinConcat(a: seq<Entry>, b: seq<Entry>)
    ensures Join(a + b) == Join(a) + Join(b)
  {
    if a == [] {
      assert a + b == b;
    } else {
      assert (a + b)[1..] == a[1..] + b;
      JoinConcat(a[1..], b);
    }
  }

  // ------------------------------------------------------------------
  // A last line without a newline

  function Closed(t: string): string {
    if Ended(t) then t else t + "\n"
  }

  lemma {:induction false} TrimIgnoresNewline(s: string)
    ensures Trim(s + "\n") == Trim(s)
  {
    if s == "" {
      DropBlank("\n");
      assert s + "\n" == "\n" && "\n"[1..] == "";
    } else if IsSpace(s[0]) {
      DropBlank(s);
      DropBlank(s + "\n");
      assert (s + "\n")[1..] == s[1..] + "\n";
      TrimIgnoresNewline(s[1..]);
    } else {
      TrimTail(s, "\n");
    }
  }

  /** A newline at its end changes nothing a line binds. */
  lemma NewlineIsNothing(table: seq<Section>, l: string)
    ensures Read(table, l + "\n").bound == Read(table, l).bound
  {
    TrimIgnoresNewline(l);
  }

  lemma JoinOne(e: Entry)
    ensures Join([e]) == e.text
  {
    assert [e][1..] == [];
  }

  /** One turn of the copying loop. */
  lemma ChunkStep(table: seq<Section>, batch: seq<Order>, head: string, rest: string, c: Copy)
    requires |c.done| == |batch| && head != "" && ChunkLength(head + rest) == |head|
    ensures CopyAll(table, batch, head + rest, c) == CopyAll(table, batch, rest, CopyLine(batch, Read(table, head), c))
  {
    assert (head + rest)[..|head|] == head && (head + rest)[|head|..] == rest;
  }

  // ------------------------------------------------------------------
  // The rewrite as a loop

  /** The settings a load applies, in order. */
  function Applied(lines: seq<string>): seq<Pair> {
    if lines == [] then []
    else
      (if KeyOf(lines[0]).Some? then [Pair(KeyOf(lines[0]).value, ValueOf(lines[0]))] else []) + Applied(lines[1..])
  }

  lemma AppliedCons(done: seq<Pair>, l: string, rest: seq<string>)
    ensures done + Applied([l] + rest) ==
            (if KeyOf(l).Some? then done + [Pair(KeyOf(l).value, ValueOf(l))] else done) + Applied(rest)
  {
    assert ([l] + rest)[1..] == rest;
  }

  /** config_load's loop over the file. */
  method LoadFile(t: string) returns (applied: seq<Pair>)
    ensures applied == Applied(Parsed(t))
  {
    applied := [];
    var rest := t;
    while rest != ""
      invariant applied + Applied(Parsed(rest)) == Applied(Parsed(t))
      decreases |rest|
    {
      var n := ChunkLength(rest);
      if n == LINE_BUF - 1 && rest[n - 1] != '\n' && n < |rest| {
        rest := rest[LineLength(rest)..];
      } else {
        var bound, key, val := ReadLine(rest[..n]);
        AppliedCons(applied, rest[..n], Parsed(rest[n..]));
        if bound { applied := applied + [Pair(key, val)]; }
        rest := rest[n..];
      }
    }
  }

  /** The first pair that claims a key: the spelling itself or its canonical form. */
  method FindPair(table: seq<Section>, batch: seq<Pair>, k: string) returns (i: nat)
    ensures i == First(Orders(table, batch), Setting(Canonical(table, k), ""), 0)
  {
    ghost var s, orders := Setting(Canonical(table, k), ""), Orders(table, batch);
    i := 0;
    while i < |batch|
      invariant 0 <= i <= |batch| && First(orders, s, 0) == First(orders, s, i)
    {
      OrderAt(table, batch, i);
      if k == batch[i].key { return; }
      if Cut(Canonical(table, k)) == Cut(Canonical(table, batch[i].key)) { return; }
      i := i + 1;
    }
  }

  lemma FirstIgnoresValue(batch: seq<Order>, s: Setting, v: string, i: nat)
    requires i <= |batch|
    ensures First(batch, s, i) == First(batch, s.(value := v), i)
    decreases |batch| - i
  {}

  lemma ClaimIs(table: seq<Section>, batch: seq<Pair>, line: string)
    ensures Claim(Orders(table, batch), Read(table, line)) ==
            if KeyOf(line).None? then |batch|
            else First(Orders(table, batch), Setting(Canonical(table, KeyOf(line).value), ""), 0)
  {
    if KeyOf(line).Some? {
      FirstIgnoresValue(Orders(table, batch), Setting(Canonical(table, KeyOf(line).value), ""), ValueOf(line), 0);
    }
  }

  lemma CopyLineIs(batch: seq<Order>, e: Entry, c: Copy)
    requires |c.done| == |batch|
    ensures var i := Claim(batch, e);
            CopyLine(batch, e, c) ==
            if i == |batch| then Copy(c.out + e.text, c.done, Ended(e.text))
            else if c.done[i] then Copy(c.out, c.done, true)
            else Copy(c.out + batch[i].line.text, c.done[i := true], true)
  {
    var i := Claim(batch, e);
    JoinOne(e);
    if i < |batch| {
      JoinOne(batch[i].line);
      assert c.out + "" == c.out;
      if c.done[i] { assert c.done[i := true] == c.done; }
    }
  }

  /** One chunk of the old file. */
  method CopyChunk(table: seq<Section>, batch: seq<Pair>, line: string, out: string, done: array<bool>, ghost was: bool)
    returns (out': string, ended: bool)
    requires done.Length == |batch|
    modifies done
    ensures Copy(out', done[..], ended) ==
            CopyLine(Orders(table, batch), Read(table, line), Copy(out, old(done[..]), was))
  {
    ClaimIs(table, batch, line);
    CopyLineIs(Orders(table, batch), Read(table, line), Copy(out, done[..], was));
    var i := |batch|;
    var bound, k, v := ReadLine(line);
    if bound { i := FindPair(table, batch, k); }
    if i == |batch| {
      out', ended := out + line, line == "" || line[|line| - 1] == '\n';
    } else {
      out', ended := out, true;
      if !done[i] {
        OrderText(table, batch, i);
        var l := WriteLine(batch[i].key, batch[i].val);
        out' := out + l;
        done[i] := true;
      }
    }
  }

  /** One turn of the loop, towards what the whole loop will have done. */
  method CopyNext(table: seq<Section>, batch: seq<Pair>, head: string, out: string, done: array<bool>, ghost rest: string, ghost c: Copy)
    returns (out': string, ended': bool, ghost c': Copy)
    requires |c.done| == done.Length == |batch| && c == Copy(out, done[..], c.ended)
    requires head != "" && ChunkLength(head + rest) == |head|
    modifies done
    ensures |c'.done| == |batch| && c' == Copy(out', done[..], ended')
    ensures CopyAll(table, Orders(table, batch), rest, c') == CopyAll(table, Orders(table, batch), head + rest, c)
  {
    ghost var orders := Orders(table, batch);
    ChunkStep(table, orders, head, rest, c);
    c' := CopyLine(orders, Read(table, head), c);
    out', ended' := CopyChunk(table, batch, head, out, done, c.ended);
  }

  /** The whole old file, a chunk at a time. */
  method CopyFile(table: seq<Section>, batch: seq<Pair>, t: string, done: array<bool>) returns (out: string, ended: bool)
    requires done.Length == |batch|
    modifies done
    ensures Copy(out, done[..], ended) == CopyAll(table, Orders(table, batch), t, Copy("", old(done[..]), true))
  {
    ghost var c := Copy("", done[..], true);
    ghost var goal := CopyAll(table, Orders(table, batch), t, c);
    var rest := t;
    out, ended := "", true;
    while rest != ""
      invariant |c.done| == |batch| && c == Copy(out, done[..], ended)
      invariant CopyAll(table, Orders(table, batch), rest, c) == goal
      decreases |rest|
    {
      var n := ChunkLength(rest);
      var head, tail := rest[..n], rest[n..];
      Halves(rest, n);
      out, ended, c := CopyNext(table, batch, head, out, done, tail, c);
      rest := tail;
    }
  }

  lemma Halves(t: string, n: nat)
    requires n <= |t|
    ensures t[..n] + t[n..] == t
  {}

  /** The newline the body may lack, and what is missing. */
  method Finish(table: seq<Section>, batch: seq<Pair>, body: string, ended: bool, done: array<bool>, ghost c: Copy)
    returns (out: string)
    requires done.Length == |batch| == |c.done| && c == Copy(body, done[..], ended)
    ensures out == Finished(Orders(table, batch), c)
  {
    out := body;
    if ended {
      assert body + "" == body;
    } else {
      out := out + "\n";
    }
    out := AppendMissing(table, batch, done, out);
  }

  method Compose(table: seq<Section>, batch: seq<Pair>, t: string, done: array<bool>) returns (out: string)
    requires done.Length == |batch|
    modifies done
    ensures out == Finished(Orders(table, batch), CopyAll(table, Orders(table, batch), t, Copy("", old(done[..]), true)))
  {
    ghost var goal := CopyAll(table, Orders(table, batch), t, Copy("", done[..], true));
    var ended: bool;
    out, ended := CopyFile(table, batch, t, done);
    out := Finish(table, batch, out, ended, done, goal);
  }

  /** config_write_keys on the text of the file; `ok` is false when nothing is written. */
  method WriteKeys(table: seq<Section>, keys: seq<Pair>, t: string) returns (ok: bool, out: string)
    ensures ok == (keys != [])
    ensures out == if ok then NewText(table, keys, t) else t
  {
    if keys == [] { return false, t; }
    ok := true;
    var batch := Clamped(keys);
    var done := new bool[|batch|](_ => false);
    assert done[..] == NoneDone(|batch|);
    out := Compose(table, batch, t, done);
  }

  lemma MissingFrom(batch: seq<Order>, done: seq<bool>, i: nat, out: string)
    requires |done| == |batch| && i < |batch|
    ensures out + Join(Missing(batch, done, i)) ==
            (if done[i] then out else out + batch[i].line.text) + Join(Missing(batch, done, i + 1))
  {
    var rest := Missing(batch, done, i + 1);
    if done[i] {
      assert Missing(batch, done, i) == [] + rest == rest;
    } else {
      assert Missing(batch, done, i) == [batch[i].line] + rest;
      JoinOne(batch[i].line);
      JoinConcat([batch[i].line], rest);
      Associate(out, batch[i].line.text, Join(rest));
    }
  }

  lemma OrderText(table: seq<Section>, batch: seq<Pair>, i: nat)
    requires i < |batch|
    ensures Orders(table, batch)[i].line.text == Line(batch[i].key, batch[i].val)
  {
    OrderAt(table, batch, i);
  }

  method AppendMissing(table: seq<Section>, batch: seq<Pair>, done: array<bool>, out: string) returns (r: string)
    requires done.Length == |batch|
    ensures r == out + Join(Missing(Orders(table, batch), done[..], 0))
  {
    ghost var orders, d := Orders(table, batch), done[..];
    r := out;
    var i := 0;
    while i < |batch|
      invariant 0 <= i <= |batch| && |orders| == |batch|
      invariant r + Join(Missing(orders, d, i)) == out + Join(Missing(orders, d, 0))
    {
      MissingFrom(orders, d, i, r);
      if !done[i] {
        var l := WriteLine(batch[i].key, batch[i].val);
        OrderText(table, batch, i);
        r := r + l;
      }
      i := i + 1;
    }
  }
}
