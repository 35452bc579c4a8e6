/** The configuration file of src/config.c as a list of lines: what loading it yields, and
    what rewriting some of its keys in place does to that.
  */
module ConfigFile {
  import opened ConfigLine

  // ------------------------------------------------------------------
  // Key spellings

  datatype Field = Field(name: string, alias: Option<string>)

  datatype Section = Section(prefix: string, fields: seq<Field>)

  function SectionAt(table: seq<Section>, key: string, i: nat): (r: nat)
    requires i <= |table|
    ensures i <= r <= |table| && (r < |table| ==> table[r].prefix <= key)
    decreases |table| - i
  {
    if i == |table| || table[i].prefix <= key then i else SectionAt(table, key, i + 1)
  }

  function FieldAt(fields: seq<Field>, name: string, i: nat): (r: nat)
    requires i <= |fields|
    ensures i <= r <= |fields|
    decreases |fields| - i
  {
    if i == |fields| || fields[i].name == name || fields[i].alias == Some(name) then i
    else FieldAt(fields, name, i + 1)
  }

  /** The canonical spelling of a key; an unknown key is its own. */
  function Canonical(table: seq<Section>, key: string): string {
    var s := SectionAt(table, key, 0);
    if s == |table| then key
    else
      var f := FieldAt(table[s].fields, key[|table[s].prefix|..], 0);
      if f == |table[s].fields| then key else table[s].prefix + table[s].fields[f].name
  }

  const CANON_CAP: nat := 80

  /** What of a canonical spelling fits its buffer. */
  function Cut(s: string): string {
    if |s| < CANON_CAP then s else s[..CANON_CAP - 1]
  }

  // ------------------------------------------------------------------
  // Lines as read

  /** A binding: the key's canonical spelling and its value. */
  datatype Setting = Setting(canon: string, value: string)

  /** A line and what it binds, if anything. */
  datatype Entry = Entry(text: string, bound: Option<Setting>)

  function Read(table: seq<Section>, text: string): Entry {
    Entry(text, if KeyOf(text).None? then None else Some(Setting(Canonical(table, KeyOf(text).value), ValueOf(text))))
  }

  predicate Binds(e: Entry, c: string) {
    e.bound.Some? && e.bound.value.canon == c
  }

  /** The value a canonical key ends up with: its last binding wins. */
  function Loaded(lines: seq<Entry>, c: string): Option<string> {
    if lines == [] then None
    else if Binds(lines[|lines| - 1], c) then Some(lines[|lines| - 1].bound.value.value)
    else Loaded(lines[..|lines| - 1], c)
  }

  lemma {:induction false} LoadedConcat(a: seq<Entry>, b: seq<Entry>, c: string)
    ensures Loaded(a + b, c) == if Loaded(b, c).Some? then Loaded(b, c) else Loaded(a, c)
    decreases |b|
  {
    if b == [] {
      assert a + b == a;
    } else {
      assert (a + b)[..|a + b| - 1] == a + b[..|b| - 1];
      LoadedConcat(a, b[..|b| - 1], c);
    }
  }

  lemma LoadedOne(e: Entry, c: string)
    ensures Loaded([e], c) == if Binds(e, c) then Some(e.bound.value.value) else None
  {
    assert [e][..0] == [];
  }

  // ------------------------------------------------------------------
  // Rewriting

  datatype Pair = Pair(key: string, val: string)

  /** A pair of the batch: its canonical key and the line it is written as. */
  datatype Order = Order(canon: string, line: Entry)

  function OrderOf(table: seq<Section>, p: Pair): Order {
    Order(Canonical(table, p.key), Read(table, Line(p.key, p.val)))
  }

  /** The rewriter takes two keys for one when their canonical spellings agree as far as
      they fit. */
  predicate Same(s: Setting, o: Order) {
    Cut(s.canon) == Cut(o.canon)
  }

  /** The first order for this binding from i on; |batch| if there is none. */
  function First(batch: seq<Order>, s: Setting, i: nat): (r: nat)
    requires i <= |batch|
    ensures i <= r <= |batch|
    ensures r < |batch| ==> Same(s, batch[r])
    ensures forall j :: i <= j < r ==> !Same(s, batch[j])
    decreases |batch| - i
  {
    if i == |batch| || Same(s, batch[i]) then i else First(batch, s, i + 1)
  }

  /** The order that claims a line of the old file. */
  function Claim(batch: seq<Order>, e: Entry): (r: nat)
    ensures r <= |batch|
  {
    if e.bound.None? then |batch| else First(batch, e.bound.value, 0)
  }

  /** A claimed line is replaced the first time and dropped after that. */
  function Replaced(batch: seq<Order>, e: Entry, done: seq<bool>): seq<Entry>
    requires |done| == |batch|
  {
    var i := Claim(batch, e);
    if i == |batch| then [e] else if done[i] then [] else [batch[i].line]
  }

  function Marked(batch: seq<Order>, e: Entry, done: seq<bool>): (r: seq<bool>)
    requires |done| == |batch|
    ensures |r| == |batch|
  {
    var i := Claim(batch, e);
    if i == |batch| then done else done[i := true]
  }

  /** The old lines, rewritten. */
  function Body(batch: seq<Order>, lines: seq<Entry>, done: seq<bool>): seq<Entry>
    requires |done| == |batch|
    decreases |lines|
  {
    if lines == [] then []
    else Replaced(batch, lines[0], done) + Body(batch, lines[1..], Marked(batch, lines[0], done))
  }

  function Done(batch: seq<Order>, lines: seq<Entry>, done: seq<bool>): (r: seq<bool>)
    requires |done| == |batch|
    ensures |r| == |batch|
    decreases |lines|
  {
    if lines == [] then done else Done(batch, lines[1..], Marked(batch, lines[0], done))
  }

  /** The lines of the orders no old line was replaced by, from j on. */
  function Missing(batch: seq<Order>, done: seq<bool>, j: nat): seq<Entry>
    requires |done| == |batch| && j <= |batch|
    decreases |batch| - j
  {
    if j == |batch| then [] else (if done[j] then [] else [batch[j].line]) + Missing(batch, done, j + 1)
  }

  function NoneDone(n: nat): (r: seq<bool>)
    ensures |r| == n && forall i :: 0 <= i < n ==> !r[i]
  {
    seq(n, _ => false)
  }

  /** Every line of the new file. */
  function Rewritten(batch: seq<Order>, lines: seq<Entry>): seq<Entry> {
    Body(batch, lines, NoneDone(|batch|)) + Missing(batch, Done(batch, lines, NoneDone(|batch|)), 0)
  }

  // ------------------------------------------------------------------
  // What a rewrite means

  /** An order's line binds its key, and the key's canonical spelling fits. */
  predicate Proper(o: Order) {
    Binds(o.line, o.canon) && |o.canon| < CANON_CAP - 1
  }

  predicate AllProper(batch: seq<Order>) {
    forall j :: 0 <= j < |batch| ==> Proper(batch[j])
  }

  /** The value the batch gives a key: its last order wins. */
  function Given(batch: seq<Order>, c: string): Option<string> {
    if batch == [] then None
    else if batch[|batch| - 1].canon == c && batch[|batch| - 1].line.bound.Some?
    then Some(batch[|batch| - 1].line.bound.value.value)
    else Given(batch[..|batch| - 1], c)
  }

  /** The first order for a key from i on; |batch| if there is none. */
  function Index(batch: seq<Order>, c: string, i: nat): (r: nat)
    requires i <= |batch|
    ensures i <= r <= |batch|
    ensures r < |batch| ==> batch[r].canon == c
    ensures forall j :: i <= j < r ==> batch[j].canon != c
    decreases |batch| - i
  {
    if i == |batch| || batch[i].canon == c then i else Index(batch, c, i + 1)
  }

  lemma {:induction false} FirstIsIndex(batch: seq<Order>, s: Setting, i: nat)
    requires AllProper(batch) && i <= |batch|
    ensures First(batch, s, i) == Index(batch, s.canon, i)
    decreases |batch| - i
  {
    if i < |batch| {
      assert Proper(batch[i]);
      FirstIsIndex(batch, s, i + 1);
    }
  }

  /** Only an order that is the first for its key is ever marked. */
  predicate Firsts(batch: seq<Order>, done: seq<bool>)
    requires |done| == |batch|
  {
    forall j :: 0 <= j < |batch| && done[j] ==> Index(batch, batch[j].canon, 0) == j
  }

  function Value(o: Order): string
    requires Proper(o)
  {
    o.line.bound.value.value
  }

  /** One line of the rewrite. */
  lemma StepValue(batch: seq<Order>, e: Entry, done: seq<bool>, c: string)
    requires AllProper(batch) && |done| == |batch| && Firsts(batch, done)
    ensures var i := Index(batch, c, 0);
            var r := Loaded(Replaced(batch, e, done), c);
            var m := Marked(batch, e, done);
            && Firsts(batch, m)
            && (i == |batch| ==> r == Loaded([e], c))
            && (i < |batch| ==>
                  && r == (if Binds(e, c) && !done[i] then Some(Value(batch[i])) else None)
                  && m[i] == (done[i] || Binds(e, c)))
  {
    LoadedOne(e, c);
    if e.bound.Some? {
      FirstIsIndex(batch, e.bound.value, 0);
      var x := First(batch, e.bound.value, 0);
      if x < |batch| {
        assert Proper(batch[x]);
        LoadedOne(batch[x].line, c);
      }
    }
  }

  /** The rewritten lines bind a key of the batch once, to its first value, if the old
      lines bound it at all; every other key keeps its value. */
  lemma {:induction false} BodyValue(batch: seq<Order>, lines: seq<Entry>, done: seq<bool>, c: string)
    requires AllProper(batch) && |done| == |batch| && Firsts(batch, done)
    ensures var i := Index(batch, c, 0);
            var r, m := Loaded(Body(batch, lines, done), c), Done(batch, lines, done);
            && Firsts(batch, m)
            && (i == |batch| ==> r == Loaded(lines, c))
            && (i < |batch| ==>
                  && r == (if Loaded(lines, c).Some? && !done[i] then Some(Value(batch[i])) else None)
                  && m[i] == (done[i] || Loaded(lines, c).Some?))
    decreases |lines|
  {
    if lines != [] {
      var m := Marked(batch, lines[0], done);
      StepValue(batch, lines[0], done, c);
      BodyValue(batch, lines[1..], m, c);
      LoadedConcat(Replaced(batch, lines[0], done), Body(batch, lines[1..], m), c);
      LoadedConcat([lines[0]], lines[1..], c);
      LoadedOne(lines[0], c);
      assert [lines[0]] + lines[1..] == lines;
    }
  }

  /** Order x is the last one for the key that was not written in place; -1 if none is. */
  predicate LastOpen(batch: seq<Order>, done: seq<bool>, c: string, x: int)
    requires |done| == |batch|
  {
    && -1 <= x < |batch| && (x >= 0 ==> !done[x] && batch[x].canon == c)
    && forall y :: x < y < |batch| ==> done[y] || batch[y].canon != c
  }

  lemma {:induction false} MissingValue(batch: seq<Order>, done: seq<bool>, c: string, x: int, j: nat)
    requires AllProper(batch) && |done| == |batch| && j <= |batch| && LastOpen(batch, done, c, x)
    ensures Loaded(Missing(batch, done, j), c) == if x >= j then Some(Value(batch[x])) else None
    decreases |batch| - j
  {
    if j < |batch| {
      MissingValue(batch, done, c, x, j + 1);
      LoadedConcat(if done[j] then [] else [batch[j].line], Missing(batch, done, j + 1), c);
      LoadedOne(batch[j].line, c);
      assert Proper(batch[j]);
    }
  }

  lemma {:induction false} GivenIs(batch: seq<Order>, c: string) returns (j: int)
    requires AllProper(batch)
    ensures -1 <= j < |batch| && (j >= 0 ==> batch[j].canon == c)
    ensures Given(batch, c) == if j >= 0 then Some(Value(batch[j])) else None
    ensures forall x :: j < x < |batch| ==> batch[x].canon != c
    decreases |batch|
  {
    if batch == [] {
      j := -1;
    } else {
      assert Proper(batch[|batch| - 1]);
      if batch[|batch| - 1].canon == c {
        j := |batch| - 1;
      } else {
        var init := batch[..|batch| - 1];
        assert forall x :: 0 <= x < |init| ==> init[x] == batch[x];
        j := GivenIs(init, c);
      }
    }
  }

  /** The last order for a key is either written in place, being the first, or appended
      last. */
  lemma LastIsOpen(batch: seq<Order>, done: seq<bool>, c: string, j: int) returns (x: int)
    requires |done| == |batch| && Firsts(batch, done)
    requires -1 <= j < |batch| && (j >= 0 ==> batch[j].canon == c)
    requires forall y :: j < y < |batch| ==> batch[y].canon != c
    ensures LastOpen(batch, done, c, x)
    ensures var i := Index(batch, c, 0);
            && (j < 0 ==> i == |batch| && x == -1)
            && (j >= 0 ==> i <= j && x == if j == i && done[i] then -1 else j)
  {
    var i := Index(batch, c, 0);
    x := if j >= 0 && j == i && done[i] then -1 else j;
  }

  /** Loading the rewritten lines gives the old settings overridden by the batch, the last
      of its orders for a key winning. */
  lemma RewriteMeans(batch: seq<Order>, lines: seq<Entry>, c: string)
    requires AllProper(batch)
    ensures Loaded(Rewritten(batch, lines), c) ==
            if Given(batch, c).Some? then Given(batch, c) else Loaded(lines, c)
  {
    var none := NoneDone(|batch|);
    var body, done := Body(batch, lines, none), Done(batch, lines, none);
    BodyValue(batch, lines, none, c);
    var j := GivenIs(batch, c);
    var x := LastIsOpen(batch, done, c, j);
    MissingValue(batch, done, c, x, 0);
    LoadedConcat(body, Missing(batch, done, 0), c);
  }

  // ------------------------------------------------------------------
  // Untouched lines

  /** The lines the batch has nothing to do with. */
  function Others(batch: seq<Order>, lines: seq<Entry>): seq<Entry> {
    if lines == [] then []
    else (if Claim(batch, lines[0]) == |batch| then [lines[0]] else []) + Others(batch, lines[1..])
  }

  lemma {:induction false} OthersConcat(batch: seq<Order>, a: seq<Entry>, b: seq<Entry>)
    ensures Others(batch, a + b) == Others(batch, a) + Others(batch, b)
  {
    if a == [] {
      assert a + b == b;
    } else {
      assert (a + b)[1..] == a[1..] + b;
      OthersConcat(batch, a[1..], b);
      Associate(if Claim(batch, a[0]) == |batch| then [a[0]] else [], Others(batch, a[1..]), Others(batch, b));
    }
  }

  lemma Associate<T>(a: seq<T>, b: seq<T>, c: seq<T>)
    ensures (a + b) + c == a + (b + c)
  {}

  lemma OthersOne(batch: seq<Order>, e: Entry)
    ensures Others(batch, [e]) == if Claim(batch, e) == |batch| then [e] else []
  {
    assert [e][1..] == [];
  }

  lemma WrittenIsClaimed(batch: seq<Order>, j: nat)
    requires AllProper(batch) && j < |batch|
    ensures Others(batch, [batch[j].line]) == []
  {
    assert Proper(batch[j]);
    OthersOne(batch, batch[j].line);
    assert Same(batch[j].line.bound.value, batch[j]);
  }

  lemma {:induction false} MissingIsClaimed(batch: seq<Order>, done: seq<bool>, j: nat)
    requires AllProper(batch) && |done| == |batch| && j <= |batch|
    ensures Others(batch, Missing(batch, done, j)) == []
    decreases |batch| - j
  {
    if j < |batch| {
      WrittenIsClaimed(batch, j);
      MissingIsClaimed(batch, done, j + 1);
      OthersConcat(batch, if done[j] then [] else [batch[j].line], Missing(batch, done, j + 1));
    }
  }

  lemma {:induction false} BodyKeepsOthers(batch: seq<Order>, lines: seq<Entry>, done: seq<bool>)
    requires AllProper(batch) && |done| == |batch|
    ensures Others(batch, Body(batch, lines, done)) == Others(batch, lines)
    decreases |lines|
  {
    if lines != [] {
      var m := Marked(batch, lines[0], done);
      BodyKeepsOthers(batch, lines[1..], m);
      OthersConcat(batch, Replaced(batch, lines[0], done), Body(batch, lines[1..], m));
      OthersOne(batch, lines[0]);
      if Claim(batch, lines[0]) < |batch| { WrittenIsClaimed(batch, Claim(batch, lines[0])); }
    }
  }

  /** Comments, blank lines and lines of other keys keep their text and their order, and
      nothing else is added to them. */
  lemma RewriteKeepsOthers(batch: seq<Order>, lines: seq<Entry>)
    requires AllProper(batch)
    ensures Others(batch, Rewritten(batch, lines)) == Others(batch, lines)
  {
    var none := NoneDone(|batch|);
    var done := Done(batch, lines, none);
    BodyKeepsOthers(batch, lines, none);
    MissingIsClaimed(batch, done, 0);
    OthersConcat(batch, Body(batch, lines, none), Missing(batch, done, 0));
  }
}
