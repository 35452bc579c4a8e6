/** One line of the configuration file of src/config.c: how a setting is written, how a
    line is read, and that reading undoes writing.
  */
module ConfigLine {

  datatype Option<T> = None | Some(value: T)

  predicate IsSpace(c: char) {
    c == ' ' || 9 <= c as int <= 13
  }

  function TrimLeft(s: string): string {
    if s != "" && IsSpace(s[0]) then TrimLeft(s[1..]) else s
  }

  function TrimRight(s: string): string {
    if s != "" && IsSpace(s[|s| - 1]) then TrimRight(s[..|s| - 1]) else s
  }

  function Trim(s: string): string {
    TrimRight(TrimLeft(s))
  }

  predicate Bare(s: string) {
    s == "" || (!IsSpace(s[0]) && !IsSpace(s[|s| - 1]))
  }

  /** The first position of c at or after i; |s| if there is none. */
  function Find(s: string, c: char, i: nat): nat
    requires i <= |s|
    decreases |s| - i
  {
    if i == |s| || s[i] == c then i else Find(s, c, i + 1)
  }

  predicate OpensComment(s: string, i: nat)
    requires i < |s|
  {
    s[i] == '#' && (i == 0 || s[i - 1] == ' ' || s[i - 1] == '\t')
  }

  /** The first inline comment at or after i; |s| if there is none. */
  function CommentAt(s: string, i: nat): nat
    requires i <= |s|
    decreases |s| - i
  {
    if i == |s| || OpensComment(s, i) then i else CommentAt(s, i + 1)
  }

  predicate IsQuote(c: char) { c == '"' || c == '\'' }

  function StripComment(s: string): string {
    if s != "" && IsQuote(s[0]) then s
    else CommentBound(s, 0); s[..CommentAt(s, 0)]
  }

  lemma {:induction false} CommentBound(s: string, i: nat)
    requires i <= |s|
    ensures i <= CommentAt(s, i) <= |s|
    decreases |s| - i
  {
    if i < |s| && !OpensComment(s, i) { CommentBound(s, i + 1); }
  }

  /** The first position from i on that is neither a blank nor a tab. */
  function SkipBlanks(s: string, i: nat): nat
    requires i <= |s|
    ensures i <= SkipBlanks(s, i) <= |s|
    decreases |s| - i
  {
    if i < |s| && (s[i] == ' ' || s[i] == '\t') then SkipBlanks(s, i + 1) else i
  }

  /** A quote closes the value if nothing but blanks or a comment follows it. */
  predicate Closes(s: string, i: nat)
    requires 0 < i < |s|
  {
    s[i] == s[0] && (SkipBlanks(s, i + 1) == |s| || s[SkipBlanks(s, i + 1)] == '#')
  }

  /** The rightmost closing quote at or before i; 0 if there is none. */
  function ClosingQuote(s: string, i: nat): nat
    requires i < |s|
  {
    if i == 0 || Closes(s, i) then i else ClosingQuote(s, i - 1)
  }

  function Unquote(s: string): string {
    if s == "" || !IsQuote(s[0]) then s
    else
      ClosingBound(s, |s| - 1);
      var p := ClosingQuote(s, |s| - 1);
      if p == 0 then s else s[1..p]
  }

  lemma {:induction false} ClosingBound(s: string, i: nat)
    requires i < |s|
    ensures ClosingQuote(s, i) <= i
  {
    if i > 0 && !Closes(s, i) { ClosingBound(s, i - 1); }
  }

  predicate Comment(s: string) { s != "" && (s[0] == '#' || s[0] == ';') }

  lemma {:induction false} FindBound(s: string, c: char, i: nat)
    requires i <= |s|
    ensures var p := Find(s, c, i);
            i <= p <= |s| && (p < |s| ==> s[p] == c) && forall j :: i <= j < p ==> s[j] != c
    decreases |s| - i
  {
    if i < |s| && s[i] != c { FindBound(s, c, i + 1); }
  }

  /** The key a line binds, if it binds one. */
  function KeyOf(line: string): Option<string> {
    var s := Trim(line);
    FindBound(s, '=', 0);
    if s == "" || Comment(s) || Find(s, '=', 0) == |s| then None else Some(Trim(s[..Find(s, '=', 0)]))
  }

  /** The value it binds the key to. */
  function ValueOf(line: string): string
    requires KeyOf(line).Some?
  {
    var s := Trim(line);
    FindBound(s, '=', 0);
    Unquote(Trim(StripComment(Trim(s[Find(s, '=', 0) + 1..]))))
  }

  // ------------------------------------------------------------------
  // Writing

  const VALUE_MAX: nat := 255

  function FoldChar(c: char): char {
    if c as int < 0x20 then ' ' else c
  }

  /** What is stored of a value: control characters become spaces, the rest beyond the
      buffer is cut. */
  function Folded(v: string): string {
    FoldAll(if |v| <= VALUE_MAX then v else v[..VALUE_MAX])
  }

  function FoldAll(v: string): (r: string)
    ensures |r| == |v|
  {
    if v == "" then "" else [FoldChar(v[0])] + FoldAll(v[1..])
  }

  predicate Plain(c: char) {
    c != ' ' && c != '#' && c != '"' && c != '\'' && c != ';'
  }

  predicate NeedsQuotes(v: string) {
    v == "" || exists i :: 0 <= i < |v| && !Plain(v[i])
  }

  function Quoted(v: string): string {
    if NeedsQuotes(v) then "\"" + v + "\"" else v
  }

  function Line(k: string, v: string): string {
    k + " = " + Quoted(Folded(v)) + "\n"
  }

  // ------------------------------------------------------------------
  // Reading undoes writing

  /** A key survives being written: it holds no '=', no blank at either end and does not
      look like a comment. */
  predicate Clean(k: string) {
    '=' !in k && Bare(k) && !Comment(k)
  }

  lemma {:induction false} TrimLeftIs(s: string) returns (n: nat)
    ensures n <= |s| && TrimLeft(s) == s[n..]
    ensures TrimLeft(s) != "" ==> !IsSpace(TrimLeft(s)[0])
  {
    n := 0;
    if s != "" && IsSpace(s[0]) {
      var m := TrimLeftIs(s[1..]);
      n := m + 1;
      assert s[1..][m..] == s[n..];
    } else {
      assert s == s[0..];
    }
  }

  lemma {:induction false} TrimRightIs(s: string) returns (n: nat)
    ensures n <= |s| && TrimRight(s) == s[..n]
    ensures TrimRight(s) != "" ==> !IsSpace(TrimRight(s)[|TrimRight(s)| - 1])
    decreases |s|
  {
    n := |s|;
    if s != "" && IsSpace(s[|s| - 1]) {
      n := TrimRightIs(s[..|s| - 1]);
      assert s[..|s| - 1][..n] == s[..n];
    } else {
      assert s == s[..|s|];
    }
  }

  /** Trimming cuts a bare piece out. */
  lemma TrimIs(s: string) returns (i: nat, j: nat)
    ensures Bare(Trim(s))
    ensures i <= j <= |s| && Trim(s) == s[i..j]
  {
    i := TrimLeftIs(s);
    var left := s[i..];
    var n := TrimRightIs(left);
    j := i + n;
    assert left[..n] == s[i..j];
    if n > 0 { assert left[..n][0] == left[0] && left[..n][n - 1] == left[n - 1]; }
  }

  lemma BareStays(s: string)
    requires Bare(s)
    ensures Trim(s) == s
  {}

  lemma {:induction false} TrimTail(s: string, t: string)
    requires forall i :: 0 <= i < |t| ==> IsSpace(t[i])
    ensures TrimRight(s + t) == TrimRight(s)
    decreases |t|
  {
    if t == "" {
      assert s + t == s;
    } else {
      assert (s + t)[..|s + t| - 1] == s + t[..|t| - 1];
      TrimTail(s, t[..|t| - 1]);
    }
  }

  lemma {:induction false} FoldAllIs(v: string)
    ensures forall i :: 0 <= i < |v| ==> FoldAll(v)[i] == FoldChar(v[i])
  {
    if v != "" { FoldAllIs(v[1..]); }
  }

  lemma FoldedIs(v: string)
    ensures |Folded(v)| == if |v| <= VALUE_MAX then |v| else VALUE_MAX
    ensures forall i :: 0 <= i < |Folded(v)| ==> Folded(v)[i] == FoldChar(v[i]) && Folded(v)[i] as int >= 0x20
  {
    FoldAllIs(if |v| <= VALUE_MAX then v else v[..VALUE_MAX]);
  }

  /** What is written after the '=' has no blank at either end and is never empty. */
  lemma QuotedIsBare(f: string)
    requires forall i :: 0 <= i < |f| ==> f[i] as int >= 0x20
    ensures Quoted(f) != "" && Bare(Quoted(f))
  {
    if !NeedsQuotes(f) { assert Plain(f[0]) && Plain(f[|f| - 1]); }
  }

  lemma {:induction false} NoCommentInPlain(f: string, i: nat)
    requires forall j :: 0 <= j < |f| ==> Plain(f[j])
    requires i <= |f|
    ensures CommentAt(f, i) == |f|
    decreases |f| - i
  {
    if i < |f| { NoCommentInPlain(f, i + 1); }
  }

  /** The loader takes the written form back to the value. */
  lemma UnquoteUndoes(f: string)
    requires forall i :: 0 <= i < |f| ==> f[i] as int >= 0x20
    ensures Unquote(Trim(StripComment(Quoted(f)))) == f
  {
    QuotedIsBare(f);
    BareStays(Quoted(f));
    if NeedsQuotes(f) {
      var q := "\"" + f + "\"";
      assert Closes(q, |q| - 1);
      assert q[1..|q| - 1] == f;
    } else {
      forall j | 0 <= j < |f| ensures Plain(f[j]) {}
      NoCommentInPlain(f, 0);
      assert f[..|f|] == f;
    }
  }

  lemma FindFirst(a: string, c: char, b: string)
    requires c !in a
    ensures Find(a + [c] + b, c, 0) == |a|
  {
    var s := a + [c] + b;
    FindBound(s, c, 0);
    assert s[|a|] == c && forall j :: 0 <= j < |a| ==> s[j] == a[j];
  }

  lemma DropBlank(s: string)
    requires s != "" && IsSpace(s[0])
    ensures Trim(s) == Trim(s[1..])
  {}

  /** The line as the loader sees it after trimming. */
  lemma TrimmedLine(k: string, q: string)
    requires Clean(k) && q != "" && Bare(q)
    ensures Trim(k + " = " + q + "\n") == if k == "" then "= " + q else k + " = " + q
  {
    var line := k + " = " + q + "\n";
    if k == "" {
      var rest := "= " + q;
      DropBlank(line);
      assert line[1..] == rest + "\n";
      TrimTail(rest, "\n");
      BareStays(rest);
    } else {
      assert line == (k + " = " + q) + "\n";
      TrimTail(k + " = " + q, "\n");
      BareStays(k + " = " + q);
    }
  }

  lemma TrimKey(k: string)
    requires Bare(k)
    ensures Trim(k + " ") == k && Trim(" " + k) == k
  {
    BareStays(k);
    DropBlank(" " + k);
    assert (" " + k)[1..] == k;
    if k == "" {
      assert k + " " == " " + k;
    } else {
      TrimTail(k, " ");
    }
  }

  /** A trimmed line with a key, an '=' and something after it. */
  lemma SplitAtEquals(line: string, a: string, rest: string)
    requires Trim(line) == a + ['='] + rest && '=' !in a && !Comment(a)
    ensures KeyOf(line) == Some(Trim(a)) && ValueOf(line) == Unquote(Trim(StripComment(Trim(rest))))
  {
    var s := Trim(line);
    FindFirst(a, '=', rest);
    assert s[..|a|] == a && s[|a| + 1..] == rest;
    if a != "" { assert s[0] == a[0]; }
  }

  /** What follows the key's blank starts with the '='. */
  lemma LineAtEquals(k: string, q: string, a: string)
    requires Clean(k) && q != "" && Bare(q) && a == if k == "" then "" else k + " "
    ensures Trim(k + " = " + q + "\n") == a + ['='] + (" " + q)
    ensures Trim(a) == k && Trim(" " + q) == q && '=' !in a && !Comment(a)
  {
    TrimmedLine(k, q);
    TrimKey(k);
    TrimKey(q);
    assert k + " = " + q == (k + " ") + ['='] + (" " + q);
    assert "= " + q == "" + ['='] + (" " + q);
    if k == "" { BareStays(""); }
  }

  lemma CleanRoundTrip(k: string, v: string)
    requires Clean(k)
    ensures KeyOf(Line(k, v)) == Some(k) && ValueOf(Line(k, v)) == Folded(v)
  {
    var f := Folded(v);
    var q := Quoted(f);
    FoldedIs(v);
    QuotedIsBare(f);
    var a := if k == "" then "" else k + " ";
    LineAtEquals(k, q, a);
    SplitAtEquals(Line(k, v), a, " " + q);
    UnquoteUndoes(f);
  }

  /** Whatever line a key is read from, it is clean. */
  lemma ReadKeysAreClean(line: string)
    requires KeyOf(line).Some?
    ensures Clean(KeyOf(line).value)
  {
    var s := Trim(line);
    var x, y := TrimIs(line);
    FindBound(s, '=', 0);
    var a := s[..Find(s, '=', 0)];
    var k := Trim(a);
    var i, j := TrimIs(a);
    assert forall p :: 0 <= p < |k| ==> k[p] == a[i + p];
    if k != "" {
      assert a[0] == s[0] && TrimLeft(a) == a;
      var n := TrimRightIs(a);
      assert k[0] == a[0];
    }
  }

  /** Loading a written line gives back the key and the folded value for every value,
      exactly when the key is clean. */
  lemma RoundTrip(k: string, v: string)
    ensures KeyOf(Line(k, v)) == Some(k) && ValueOf(Line(k, v)) == Folded(v) <==> Clean(k)
  {
    if Clean(k) { CleanRoundTrip(k, v); }
    if KeyOf(Line(k, v)) == Some(k) { ReadKeysAreClean(Line(k, v)); }
  }

  /** A value within the buffer and without control characters comes back unchanged. */
  lemma FoldedIsIdentity(v: string)
    ensures Folded(v) == v <==> |v| <= VALUE_MAX && forall i :: 0 <= i < |v| ==> v[i] as int >= 0x20
  {
    FoldedIs(v);
    if |v| <= VALUE_MAX && forall i :: 0 <= i < |v| ==> v[i] as int >= 0x20 {
      assert forall i :: 0 <= i < |v| ==> Folded(v)[i] == v[i];
    }
  }

  // ------------------------------------------------------------------
  // The loops

  method TrimLoop(s: string) returns (r: string)
    ensures r == Trim(s)
  {
    var i := 0;
    while i < |s| && IsSpace(s[i])
      invariant 0 <= i <= |s| && TrimLeft(s) == TrimLeft(s[i..])
    {
      assert s[i..][1..] == s[i + 1..];
      i := i + 1;
    }
    if i == |s| { return ""; }
    var e := |s| - 1;
    assert s[i..|s|] == s[i..];
    while e > i && IsSpace(s[e])
      invariant i <= e < |s| && TrimRight(s[i..]) == TrimRight(s[i..e + 1])
    {
      assert s[i..e + 1][..e - i] == s[i..e];
      e := e - 1;
    }
    r := s[i..e + 1];
  }

  method StripCommentLoop(s: string) returns (r: string)
    ensures r == StripComment(s)
  {
    if s != "" && IsQuote(s[0]) { return s; }
    var p := 0;
    while p < |s|
      invariant 0 <= p <= |s| && CommentAt(s, 0) == CommentAt(s, p)
    {
      if s[p] == '#' && (p == 0 || s[p - 1] == ' ' || s[p - 1] == '\t') { return s[..p]; }
      p := p + 1;
    }
    assert s[..|s|] == s;
    r := s;
  }

  /** `unterminated` is what the caller warns about. */
  method UnquoteLoop(s: string) returns (r: string, unterminated: bool)
    ensures r == Unquote(s)
    ensures unterminated <==> s != "" && IsQuote(s[0]) && ClosingQuote(s, |s| - 1) == 0
  {
    r, unterminated := s, false;
    if s == "" || !IsQuote(s[0]) { return; }
    var p := |s| - 1;
    while p > 0
      invariant 0 <= p < |s| && ClosingQuote(s, |s| - 1) == ClosingQuote(s, p)
    {
      if s[p] == s[0] {
        var t := p + 1;
        while t < |s| && (s[t] == ' ' || s[t] == '\t')
          invariant p < t <= |s| && SkipBlanks(s, p + 1) == SkipBlanks(s, t)
        {
          t := t + 1;
        }
        if t == |s| || s[t] == '#' { return s[1..p], false; }
      }
      p := p - 1;
    }
    unterminated := true;
  }

  lemma FoldAllSnoc(v: string, i: nat)
    requires i < |v|
    ensures FoldAll(v[..i + 1]) == FoldAll(v[..i]) + [FoldChar(v[i])]
  {
    FoldAllIs(v[..i + 1]);
    FoldAllIs(v[..i]);
  }

  method FoldLoop(vin: string) returns (v: string)
    ensures v == Folded(vin)
  {
    v := "";
    var p := 0;
    while p < |vin| && |v| < VALUE_MAX
      invariant |v| == p <= |vin| && p <= VALUE_MAX && v == FoldAll(vin[..p])
    {
      FoldAllSnoc(vin, p);
      v := v + [FoldChar(vin[p])];
      p := p + 1;
    }
    assert vin[..|vin|] == vin;
  }

  method QuoteLoop(v: string) returns (quote: bool)
    ensures quote == NeedsQuotes(v)
  {
    quote := v == "";
    var i := 0;
    while !quote && i < |v|
      invariant 0 <= i <= |v|
      invariant quote <==> v == "" || exists j :: 0 <= j < i && !Plain(v[j])
    {
      if v[i] == ' ' || v[i] == '#' || v[i] == '"' || v[i] == '\'' || v[i] == ';' { quote := true; }
      i := i + 1;
    }
  }

  method WriteLine(k: string, vin: string) returns (line: string)
    ensures line == Line(k, vin)
  {
    var v := FoldLoop(vin);
    var quote := QuoteLoop(v);
    line := k + " = " + (if quote then "\"" + v + "\"" else v) + "\n";
  }

  /** One line as config_load reads it. */
  method ReadLine(line: string) returns (bound: bool, key: string, val: string)
    ensures bound == KeyOf(line).Some?
    ensures bound ==> key == KeyOf(line).value && val == ValueOf(line)
  {
    bound, key, val := false, "", "";
    var s := TrimLoop(line);
    if s == "" || s[0] == '#' || s[0] == ';' { return; }
    var eq := 0;
    while eq < |s| && s[eq] != '='
      invariant 0 <= eq <= |s| && Find(s, '=', 0) == Find(s, '=', eq)
    {
      eq := eq + 1;
    }
    if eq == |s| { return; }
    bound := true;
    key := TrimLoop(s[..eq]);
    val := TrimLoop(s[eq + 1..]);
    val := StripCommentLoop(val);
    val := TrimLoop(val);
    var unterminated: bool;
    val, unterminated := UnquoteLoop(val);
  }
}
