/** The range-based JSON scanner of src/control.c: three loops over raw text that must all
    agree on where a string literal begins and ends.
  */
module JsonScan {

  datatype Option<T> = None | Some(value: T)

  // ------------------------------------------------------------------
  // The one tokenizer

  /** A string literal that a colon follows, with where its value begins and whether that is
      neither an object nor an array; any other literal; a literal the text ends in; or one
      character outside of literals. */
  datatype Token = Name(name: string, value: nat, scalar: bool) | Text | Unclosed | Mark(at: nat, c: char)

  /** The quote that ends the literal whose contents begin at i; |t| if none does. */
  function Close(t: string, i: nat): (q: nat)
    requires i <= |t|
    ensures i <= q <= |t| && (q < |t| ==> t[q] == '"')
    decreases |t| - i
  {
    if i == |t| || t[i] == '"' then i
    else if t[i] == '\\' && i + 1 < |t| then Close(t, i + 2)
    else Close(t, i + 1)
  }

  predicate IsWs(c: char) { c == ' ' || c == '\t' || c == '\r' || c == '\n' }

  function SkipWs(t: string, i: nat): (r: nat)
    requires i <= |t|
    ensures i <= r <= |t| && (r < |t| ==> !IsWs(t[r]))
    decreases |t| - i
  {
    if i < |t| && IsWs(t[i]) then SkipWs(t, i + 1) else i
  }

  predicate Scalar(t: string, v: nat) {
    v < |t| && t[v] != '{' && t[v] != '['
  }

  /** The literal between the quotes at o and q. */
  function LiteralToken(t: string, o: nat, q: nat): Token
    requires o < q < |t|
  {
    var c := SkipWs(t, q + 1);
    if c < |t| && t[c] == ':' then
      var v := SkipWs(t, c + 1);
      Name(t[o + 1..q], v, Scalar(t, v))
    else Text
  }

  function TokenAt(t: string, i: nat): Token
    requires i < |t|
  {
    if t[i] != '"' then Mark(i, t[i])
    else
      var q := Close(t, i + 1);
      if q == |t| then Unclosed else LiteralToken(t, i, q)
  }

  function After(t: string, i: nat): (n: nat)
    requires i < |t|
    ensures i < n <= |t|
  {
    if t[i] != '"' then i + 1
    else
      var q := Close(t, i + 1);
      if q == |t| then q else q + 1
  }

  function Tokens(t: string, i: nat): seq<Token>
    requires i <= |t|
    decreases |t| - i
  {
    if i == |t| then [] else [TokenAt(t, i)] + Tokens(t, After(t, i))
  }

  lemma TokensStep(t: string, i: nat)
    requires i < |t|
    ensures Tokens(t, i) == [TokenAt(t, i)] + Tokens(t, After(t, i))
    ensures Tokens(t, i) != [] && Tokens(t, i)[0] == TokenAt(t, i) && Tokens(t, i)[1..] == Tokens(t, After(t, i))
  {}

  // ------------------------------------------------------------------
  // Literals are what section 7 of RFC 8259 says

  /** How many backslashes in a row end just before j, counting back no further than i. */
  function Slashes(t: string, i: nat, j: nat): nat
    requires i <= j <= |t|
    decreases j - i
  {
    if j > i && t[j - 1] == '\\' then 1 + Slashes(t, i, j - 1) else 0
  }

  /** Skipping an escape pair leaves the parity as it was. */
  lemma {:induction false} SlashesPastPair(t: string, i: nat, j: nat)
    requires i + 2 <= j <= |t| && t[i] == '\\'
    ensures Slashes(t, i, j) % 2 == Slashes(t, i + 2, j) % 2
    decreases j - i
  {
    if j > i + 2 {
      SlashesPastPair(t, i, j - 1);
    } else {
      assert Slashes(t, i, i + 1) == 1 by { assert Slashes(t, i, i) == 0; }
    }
  }

  lemma {:induction false} SlashesPastChar(t: string, i: nat, j: nat)
    requires i + 1 <= j <= |t| && t[i] != '\\'
    ensures Slashes(t, i, j) == Slashes(t, i + 1, j)
    decreases j - i
  {
    if j > i + 1 { SlashesPastChar(t, i, j - 1); }
  }

  /** A literal ends at its first quote that no odd run of backslashes escapes. */
  lemma {:induction false} CloseIsFirstUnescaped(t: string, i: nat)
    requires i <= |t|
    ensures var q := Close(t, i);
            && (q < |t| ==> Slashes(t, i, q) % 2 == 0)
            && forall j :: i <= j < q && t[j] == '"' ==> Slashes(t, i, j) % 2 == 1
    decreases |t| - i
  {
    var q := Close(t, i);
    if i == |t| || t[i] == '"' {
    } else if t[i] == '\\' && i + 1 < |t| {
      CloseIsFirstUnescaped(t, i + 2);
      SlashesPastPair(t, i, q);
      forall j | i <= j < q && t[j] == '"' ensures Slashes(t, i, j) % 2 == 1 {
        if j == i + 1 {
          assert Slashes(t, i, i) == 0;
        } else {
          SlashesPastPair(t, i, j);
        }
      }
    } else {
      CloseIsFirstUnescaped(t, i + 1);
      if t[i] != '\\' {
        SlashesPastChar(t, i, q);
        forall j | i + 1 <= j < q && t[j] == '"' ensures Slashes(t, i, j) % 2 == 1 { SlashesPastChar(t, i, j); }
      }
    }
  }

  // ------------------------------------------------------------------
  // find_field

  const PAT_CAP: nat := 40

  /** The value of the first member of this name. */
  function FirstNamed(toks: seq<Token>, name: string): Option<nat> {
    if toks == [] then None
    else if toks[0].Name? && toks[0].name == name then Some(toks[0].value)
    else FirstNamed(toks[1..], name)
  }

  predicate PlainName(name: string) { '"' !in name && '\\' !in name }

  lemma {:induction false} PlainCloses(t: string, i: nat, name: string)
    requires PlainName(name) && i + |name| < |t| && t[i..i + |name|] == name && t[i + |name|] == '"'
    ensures Close(t, i) == i + |name|
    decreases |name|
  {
    if name != "" {
      assert t[i] == name[0] && name[0] in name;
      assert t[i + 1..i + 1 + |name[1..]|] == name[1..];
      PlainCloses(t, i + 1, name[1..]);
    }
  }

  function Pattern(name: string): string { "\"" + name + "\"" }

  predicate MatchesAt(t: string, p: nat, pat: string) {
    p + |pat| <= |t| && t[p..p + |pat|] == pat
  }

  lemma RawIsLiteral(t: string, p: nat, name: string)
    requires PlainName(name) && MatchesAt(t, p, Pattern(name))
    ensures Close(t, p + 1) == p + 1 + |name| < |t| && t[p + 1..Close(t, p + 1)] == name
  {
    var n, pat := |name|, Pattern(name);
    var raw := t[p..p + |pat|];
    assert forall j :: 0 <= j < |pat| ==> t[p + j] == raw[j];
    assert forall j :: 0 <= j < n ==> t[p + 1 + j] == pat[1 + j] == name[j];
    assert t[p + 1 + n] == pat[1 + n] == '"';
    assert t[p + 1..p + 1 + n] == name;
    PlainCloses(t, p + 1, name);
  }

  lemma Bracketed(t: string, p: nat, q: nat)
    requires p < q < |t|
    ensures t[p..q + 1] == [t[p]] + t[p + 1..q] + [t[q]]
  {}

  lemma LiteralIsRaw(t: string, p: nat, name: string)
    requires p < |t| && t[p] == '"' && Close(t, p + 1) < |t| && t[p + 1..Close(t, p + 1)] == name
    ensures MatchesAt(t, p, Pattern(name))
  {
    Bracketed(t, p, Close(t, p + 1));
  }

  /** Comparing the raw bytes with the quoted name is comparing the literal's contents. */
  lemma RawMatch(t: string, p: nat, name: string)
    requires PlainName(name) && p < |t| && t[p] == '"'
    ensures MatchesAt(t, p, Pattern(name)) <==> Close(t, p + 1) < |t| && t[p + 1..Close(t, p + 1)] == name
  {
    if MatchesAt(t, p, Pattern(name)) { RawIsLiteral(t, p, name); }
    if Close(t, p + 1) < |t| && t[p + 1..Close(t, p + 1)] == name { LiteralIsRaw(t, p, name); }
  }

  /** The inner loop that steps to a literal's end. */
  method SkipLiteral(t: string, i: nat) returns (q: nat)
    requires i <= |t|
    ensures q == Close(t, i)
  {
    q := i;
    while q < |t| && t[q] != '"'
      invariant i <= q <= |t| && Close(t, i) == Close(t, q)
    {
      if t[q] == '\\' && q + 1 < |t| { q := q + 1; }
      q := q + 1;
    }
  }

  method SkipSpace(t: string, i: nat) returns (r: nat)
    requires i <= |t|
    ensures r == SkipWs(t, i)
  {
    r := i;
    while r < |t| && IsWs(t[r])
      invariant i <= r <= |t| && SkipWs(t, i) == SkipWs(t, r)
    {
      r := r + 1;
    }
  }

  /** Is the literal at p the name sought, with a colon behind it? If so, where is the
      value? */
  method TryField(t: string, p: nat, name: string) returns (hit: Option<nat>)
    requires PlainName(name) && p < |t| && t[p] == '"'
    ensures var k := TokenAt(t, p);
            hit == if k.Name? && k.name == name then Some(k.value) else None
  {
    var pat := Pattern(name);
    RawMatch(t, p, name);
    if p + |pat| > |t| || t[p..p + |pat|] != pat { return None; }
    RawIsLiteral(t, p, name);
    var c := SkipSpace(t, p + |pat|);
    if c == |t| || t[c] != ':' { return None; }
    var v := SkipSpace(t, c + 1);
    hit := Some(v);
  }

  method FindField(t: string, name: string) returns (v: Option<nat>)
    requires PlainName(name)
    ensures v == if |name| + 2 >= PAT_CAP then None else FirstNamed(Tokens(t, 0), name)
  {
    if |Pattern(name)| >= PAT_CAP { return None; }
    var p: nat := 0;
    while p < |t|
      invariant p <= |t| && FirstNamed(Tokens(t, 0), name) == FirstNamed(Tokens(t, p), name)
    {
      TokensStep(t, p);
      if t[p] == '"' {
        v := TryField(t, p, name);
        if v.Some? { return; }
        p := SkipLiteral(t, p + 1);
      }
      if p < |t| { p := p + 1; }
    }
    v := None;
  }

  // ------------------------------------------------------------------
  // find_obj

  /** What a token does to the brace depth: nothing inside a literal counts. */
  function Step(k: Token): int {
    if !k.Mark? then 0 else if k.c == '{' then 1 else if k.c == '}' then -1 else 0
  }

  /** The brace that brings the depth back to zero. */
  function MatchingBrace(toks: seq<Token>, depth: int): Option<nat> {
    if toks == [] then None
    else if depth + Step(toks[0]) == 0 && Step(toks[0]) == -1 then Some(toks[0].at)
    else MatchingBrace(toks[1..], depth + Step(toks[0]))
  }

  function Depth(toks: seq<Token>): int {
    if toks == [] then 0 else Depth(toks[..|toks| - 1]) + Step(toks[|toks| - 1])
  }

  lemma {:induction false} DepthCons(k: Token, toks: seq<Token>)
    ensures Depth([k] + toks) == Step(k) + Depth(toks)
    decreases |toks|
  {
    if toks == [] {
      assert [k] + toks == [k] && [k][..0] == [];
    } else {
      DepthCons(k, toks[..|toks| - 1]);
      assert ([k] + toks)[..|toks|] == [k] + toks[..|toks| - 1];
    }
  }

  /** From an opening brace, the span found is balanced and nothing shorter is. */
  lemma {:induction false} BraceIsMatched(toks: seq<Token>, depth: int) returns (n: nat)
    requires MatchingBrace(toks, depth).Some? && (depth > 0 || (depth == 0 && toks != [] && Step(toks[0]) == 1))
    ensures n < |toks| && toks[n] == Mark(MatchingBrace(toks, depth).value, '}')
    ensures depth + Depth(toks[..n + 1]) == 0
    ensures forall j :: 0 < j <= n ==> depth + Depth(toks[..j]) > 0
    decreases |toks|
  {
    var d := depth + Step(toks[0]);
    assert toks[1..][..0] == [];
    if d == 0 && Step(toks[0]) == -1 {
      n := 0;
      assert toks[..1] == [toks[0]] + [];
      DepthCons(toks[0], []);
    } else {
      var m := BraceIsMatched(toks[1..], d);
      n := m + 1;
      forall j | 0 < j <= n + 1
        ensures Depth(toks[..j]) == Step(toks[0]) + Depth(toks[1..][..j - 1])
      {
        assert toks[..j] == [toks[0]] + toks[1..][..j - 1];
        DepthCons(toks[0], toks[1..][..j - 1]);
      }
    }
  }

  /** The brace-matching loop. */
  method MatchLoop(t: string, p: nat) returns (found: bool, to: nat)
    requires p < |t|
    ensures found == MatchingBrace(Tokens(t, p), 0).Some?
    ensures found ==> to == MatchingBrace(Tokens(t, p), 0).value
  {
    var depth, q: nat := 0, p;
    ghost var goal := MatchingBrace(Tokens(t, p), 0);
    while q < |t|
      invariant p <= q <= |t| && MatchingBrace(Tokens(t, q), depth) == goal
      decreases |t| - q
    {
      TokensStep(t, q);
      if t[q] == '"' {
        q := SkipLiteral(t, q + 1);
        if q == |t| { return false, 0; }
      } else if t[q] == '{' {
        depth := depth + 1;
      } else if t[q] == '}' {
        depth := depth - 1;
        if depth == 0 { return true, q; }
      }
      q := q + 1;
    }
    return false, 0;
  }

  /** The object a member's value is: just past its brace, and its matching brace. */
  method FindObj(t: string, name: string) returns (found: bool, from: nat, to: nat)
    requires PlainName(name)
    ensures var v: Option<nat> := if |name| + 2 >= PAT_CAP then None else FirstNamed(Tokens(t, 0), name);
            if v.None? || v.value >= |t| || t[v.value] != '{' then !found
            else
              var b := MatchingBrace(Tokens(t, v.value), 0);
              found == b.Some? && (found ==> from == v.value + 1 && to == b.value)
  {
    found, from, to := false, 0, 0;
    var v := FindField(t, name);
    if v.None? || v.value >= |t| || t[v.value] != '{' { return; }
    found, to := MatchLoop(t, v.value);
    from := v.value + 1;
  }

  // ------------------------------------------------------------------
  // One tokenization

  /** The tokens from j on are a tail of those from i on. */
  predicate Tail(t: string, i: nat, j: nat)
    requires i <= |t| && j <= |t|
  {
    exists k :: 0 <= k <= |Tokens(t, i)| && Tokens(t, i)[k..] == Tokens(t, j)
  }

  lemma TailStep(t: string, i: nat, j: nat)
    requires i <= |t| && j < |t| && Tail(t, i, j)
    ensures Tail(t, i, After(t, j))
  {
    TokensStep(t, j);
    var k :| 0 <= k <= |Tokens(t, i)| && Tokens(t, i)[k..] == Tokens(t, j);
    assert Tokens(t, i)[k + 1..] == Tokens(t, i)[k..][1..];
  }

  lemma {:induction false} TailPastSpace(t: string, i: nat, j: nat)
    requires i <= |t| && j <= |t| && Tail(t, i, j)
    ensures Tail(t, i, SkipWs(t, j))
    decreases |t| - j
  {
    if j < |t| && IsWs(t[j]) {
      TailStep(t, i, j);
      TailPastSpace(t, i, j + 1);
    }
  }

  lemma NameEnds(t: string, i: nat, j: nat)
    requires i <= |t| && j < |t| && Tail(t, i, j) && TokenAt(t, j).Name?
    ensures TokenAt(t, j).value <= |t| && Tail(t, i, TokenAt(t, j).value)
  {
    var q := Close(t, j + 1);
    TailStep(t, i, j);
    TailPastSpace(t, i, q + 1);
    TailStep(t, i, SkipWs(t, q + 1));
    TailPastSpace(t, i, SkipWs(t, q + 1) + 1);
  }

  /** Where a value begins, scanning afresh gives the very tokens of the whole text: the
      brace matching of find_obj and the search of find_field share one tokenization. */
  lemma {:induction false} ValueStartsToken(t: string, i: nat, j: nat, name: string)
    requires i <= |t| && j <= |t| && Tail(t, i, j) && FirstNamed(Tokens(t, j), name).Some?
    ensures FirstNamed(Tokens(t, j), name).value <= |t|
    ensures Tail(t, i, FirstNamed(Tokens(t, j), name).value)
    decreases |t| - j
  {
    TokensStep(t, j);
    if TokenAt(t, j).Name? && TokenAt(t, j).name == name {
      NameEnds(t, i, j);
    } else {
      TailStep(t, i, j);
      ValueStartsToken(t, i, After(t, j), name);
    }
  }

  // ------------------------------------------------------------------
  // ign_scan

  const IGN_NAME: nat := 48
  const IGN_CAP: nat := 512

  datatype Field = Field(name: string, alias: Option<string>, ctrl: bool)

  /** The table has a field of this name or alias that requests may set. */
  predicate InTable(tbl: seq<Field>, name: string) {
    exists i :: 0 <= i < |tbl| && tbl[i].ctrl && (name == tbl[i].name || tbl[i].alias == Some(name))
  }

  /** What the scan holds for known: the table's names, and those the section takes besides
      the table. */
  predicate Accepted(tbl: seq<Field>, extra: seq<string>, name: string) {
    InTable(tbl, name) || name in extra
  }

  /** The list in the reply: the names, the bytes used, and whether it is complete. */
  datatype Ignored = Ignored(names: seq<string>, used: nat, full: bool)

  /** The section's field table, its other names, and the escaped length of a name with its
      prefix and quotes. */
  datatype Section = Section(tbl: seq<Field>, extra: seq<string>, width: string -> nat)

  function Listed(g: Ignored, name: string, sec: Section): Ignored {
    var w := sec.width(name) + if g.used > 0 then 1 else 0;
    if !g.full then g
    else if g.used + w >= IGN_CAP then g.(full := false)
    else Ignored(g.names + [name], g.used + w, true)
  }

  function Noted(g: Ignored, name: string, sec: Section): Ignored {
    if name == "" then g
    else if |name| >= IGN_NAME then g.(full := false)
    else if Accepted(sec.tbl, sec.extra, name) then g
    else Listed(g, name, sec)
  }

  function NotedAll(g: Ignored, names: seq<string>, sec: Section): Ignored
    decreases |names|
  {
    if names == [] then g else NotedAll(Noted(g, names[0], sec), names[1..], sec)
  }

  function Nesting(k: Token, depth: nat): nat {
    if !k.Mark? then depth
    else if k.c == '{' || k.c == '[' then depth + 1
    else if (k.c == '}' || k.c == ']') && depth > 0 then depth - 1
    else depth
  }

  /** The names of the members of this object itself whose values are neither objects nor
      arrays, in order. */
  function Members(toks: seq<Token>, depth: nat): seq<string> {
    if toks == [] then []
    else
      (if depth == 0 && toks[0].Name? && toks[0].scalar then [toks[0].name] else [])
      + Members(toks[1..], Nesting(toks[0], depth))
  }

  /** The members whose names neither the table nor the section knows. */
  function Unclaimed(names: seq<string>, sec: Section): seq<string> {
    if names == [] then []
    else
      (if names[0] != "" && !Accepted(sec.tbl, sec.extra, names[0]) then [names[0]] else [])
      + Unclaimed(names[1..], sec)
  }

  lemma {:induction false} FullIsComplete(g: Ignored, names: seq<string>, sec: Section)
    ensures NotedAll(g, names, sec).full ==>
              g.full && NotedAll(g, names, sec).names == g.names + Unclaimed(names, sec)
    decreases |names|
  {
    if names == [] {
      assert g.names + [] == g.names;
    } else {
      FullIsComplete(Noted(g, names[0], sec), names[1..], sec);
      var here := if names[0] != "" && !Accepted(sec.tbl, sec.extra, names[0]) then [names[0]] else [];
      Associate(g.names, here, Unclaimed(names[1..], sec));
      assert g.names + [] == g.names;
    }
  }

  lemma Associate<T>(a: seq<T>, b: seq<T>, c: seq<T>)
    ensures (a + b) + c == a + (b + c)
  {}

  /** ign_note for one member. */
  method Note(g: Ignored, name: string, sec: Section) returns (h: Ignored)
    ensures h == Noted(g, name, sec)
  {
    if |name| == 0 { return g; }
    if |name| >= IGN_NAME { return g.(full := false); }
    var i := 0;
    while i < |sec.tbl|
      invariant 0 <= i <= |sec.tbl|
      invariant forall j :: 0 <= j < i ==> !(sec.tbl[j].ctrl && (name == sec.tbl[j].name || sec.tbl[j].alias == Some(name)))
    {
      var f := sec.tbl[i];
      if f.ctrl && (name == f.name || (f.alias.Some? && name == f.alias.value)) { return g; }
      i := i + 1;
    }
    var x := 0;
    while x < |sec.extra|
      invariant 0 <= x <= |sec.extra| && name !in sec.extra[..x]
    {
      if sec.extra[x] == name { return g; }
      x := x + 1;
    }
    assert sec.extra[..|sec.extra|] == sec.extra;
    h := Listed(g, name, sec);
  }

  function NotedToken(g: Ignored, k: Token, depth: nat, sec: Section): Ignored {
    if depth == 0 && k.Name? && k.scalar then Noted(g, k.name, sec) else g
  }

  /** The scan, token by token. */
  function Scan(g: Ignored, toks: seq<Token>, depth: nat, sec: Section): Ignored
    decreases |toks|
  {
    if toks == [] then g else Scan(NotedToken(g, toks[0], depth, sec), toks[1..], Nesting(toks[0], depth), sec)
  }

  lemma {:induction false} ScanIsNoted(g: Ignored, toks: seq<Token>, depth: nat, sec: Section)
    ensures Scan(g, toks, depth, sec) == NotedAll(g, Members(toks, depth), sec)
    decreases |toks|
  {
    if toks != [] {
      var more := Members(toks[1..], Nesting(toks[0], depth));
      ScanIsNoted(NotedToken(g, toks[0], depth, sec), toks[1..], Nesting(toks[0], depth), sec);
      if toks[0].Name? { assert ([toks[0].name] + more)[1..] == more; }
      assert [] + more == more;
    }
  }

  lemma ScanStep(g: Ignored, t: string, p: nat, depth: nat, sec: Section)
    requires p < |t|
    ensures Scan(g, Tokens(t, p), depth, sec) ==
            Scan(NotedToken(g, TokenAt(t, p), depth, sec), Tokens(t, After(t, p)), Nesting(TokenAt(t, p), depth), sec)
  {
    TokensStep(t, p);
  }

  /** One closed literal of the scan. */
  method ScanLiteral(g: Ignored, t: string, p: nat, q: nat, depth: nat, sec: Section) returns (h: Ignored)
    requires p < q < |t|
    ensures h == NotedToken(g, LiteralToken(t, p, q), depth, sec)
  {
    h := g;
    var c := SkipSpace(t, q + 1);
    if c < |t| && t[c] == ':' {
      var v := SkipSpace(t, c + 1);
      if depth == 0 && v < |t| && t[v] != '{' && t[v] != '[' { h := Note(g, t[p + 1..q], sec); }
    }
  }

  /** One token of the scan: the list, the nesting depth and where the next token is. */
  method ScanToken(g: Ignored, t: string, p: nat, depth: nat, sec: Section) returns (h: Ignored, depth': nat, next: nat)
    requires p < |t|
    ensures h == NotedToken(g, TokenAt(t, p), depth, sec)
    ensures depth' == Nesting(TokenAt(t, p), depth) && next == After(t, p)
  {
    h, depth', next := g, depth, p + 1;
    if t[p] == '{' || t[p] == '[' {
      depth' := depth + 1;
    } else if t[p] == '}' || t[p] == ']' {
      depth' := if depth > 0 then depth - 1 else depth;
    } else if t[p] == '"' {
      var q := SkipLiteral(t, p + 1);
      next := q;
      if q < |t| {
        h := ScanLiteral(g, t, p, q, depth, sec);
        next := q + 1;
      }
    }
  }

  /** The scan reports exactly the members of this object, in order, through Note. */
  method IgnScan(g: Ignored, t: string, sec: Section) returns (h: Ignored)
    ensures h == NotedAll(g, Members(Tokens(t, 0), 0), sec)
  {
    ScanIsNoted(g, Tokens(t, 0), 0, sec);
    ghost var goal := Scan(g, Tokens(t, 0), 0, sec);
    h := g;
    var depth: nat, p: nat := 0, 0;
    while p < |t|
      invariant p <= |t| && Scan(h, Tokens(t, p), depth, sec) == goal
    {
      ScanStep(h, t, p, depth, sec);
      h, depth, p := ScanToken(h, t, p, depth, sec);
    }
  }

  /** Unless the list says it is short, it is exactly the scalar members of the object whose
      names neither the field table nor the section knows, in order. */
  lemma ScanIsExact(t: string, sec: Section)
    ensures var h := NotedAll(Ignored([], 0, true), Members(Tokens(t, 0), 0), sec);
            h.full ==> h.names == Unclaimed(Members(Tokens(t, 0), 0), sec)
  {
    FullIsComplete(Ignored([], 0, true), Members(Tokens(t, 0), 0), sec);
    assert [] + Unclaimed(Members(Tokens(t, 0), 0), sec) == Unclaimed(Members(Tokens(t, 0), 0), sec);
  }
}
