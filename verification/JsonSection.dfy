/** One section of a /control request, src/control.c: the walk that looks every field of a
    table up in the section's text, against the scan that reports what the walk did not
    take. The walk finds the first name in the text at any depth, the scan sees the members
    of the section itself, and the two are dual exactly where these agree.
  */
module JsonSection {
  import opened JsonScan

  // ------------------------------------------------------------------
  // The text between the braces

  /** Reading token by token from p arrives at position b. */
  predicate Reaches(t: string, p: nat, b: nat)
    requires p <= b <= |t|
    decreases |t| - p
  {
    p == b || (p < b && After(t, p) <= b && Reaches(t, After(t, p), b))
  }

  /** The tokens passed on the way. */
  function Between(t: string, p: nat, b: nat): seq<Token>
    requires p <= b <= |t| && Reaches(t, p, b)
    decreases |t| - p
  {
    if p == b then [] else [TokenAt(t, p)] + Between(t, After(t, p), b)
  }

  lemma {:induction false} MatchReaches(t: string, p: nat, depth: int)
    requires p <= |t| && MatchingBrace(Tokens(t, p), depth).Some?
    ensures var b := MatchingBrace(Tokens(t, p), depth).value;
            p <= b < |t| && t[b] == '}' && Reaches(t, p, b)
    decreases |t| - p
  {
    TokensStep(t, p);
    var k := TokenAt(t, p);
    if !(depth + JsonScan.Step(k) == 0 && JsonScan.Step(k) == -1) {
      MatchReaches(t, After(t, p), depth + JsonScan.Step(k));
    }
  }

  lemma {:induction false} CloseCut(t: string, s: string, from: nat, to: nat, i: nat)
    requires from <= i <= to <= |t| && s == t[from..to] && Close(t, i) < to
    ensures Close(s, i - from) == Close(t, i) - from
    decreases |t| - i
  {
    assert s[i - from] == t[i];
    if t[i] == '"' {
    } else if t[i] == '\\' && i + 1 < |t| {
      assert i + 2 <= Close(t, i + 2) == Close(t, i);
      CloseCut(t, s, from, to, i + 2);
    } else {
      assert i + 1 <= Close(t, i + 1) == Close(t, i);
      CloseCut(t, s, from, to, i + 1);
    }
  }

  lemma {:induction false} SpaceCut(t: string, s: string, from: nat, to: nat, i: nat)
    requires from <= i <= to < |t| && s == t[from..to] && !IsWs(t[to])
    ensures SkipWs(t, i) <= to && SkipWs(s, i - from) == SkipWs(t, i) - from
    decreases |t| - i
  {
    if i < to {
      assert s[i - from] == t[i];
      if IsWs(t[i]) { SpaceCut(t, s, from, to, i + 1); }
    }
  }

  /** A token as it reads in the text from..to alone: positions are relative, and a value
      that would begin at the end is none. */
  function CutToken(k: Token, from: nat, to: nat): Token {
    match k
    case Name(name, value, scalar) =>
      Name(name, if from <= value then value - from else 0, scalar && value < to)
    case Mark(at, c) => Mark(if from <= at then at - from else 0, c)
    case _ => k
  }

  function CutAll(toks: seq<Token>, from: nat, to: nat): seq<Token> {
    if toks == [] then [] else [CutToken(toks[0], from, to)] + CutAll(toks[1..], from, to)
  }

  lemma SliceOfSlice(t: string, a: nat, b: nat, c: nat, d: nat)
    requires a <= c <= d <= b <= |t|
    ensures t[a..b][c - a..d - a] == t[c..d]
  {
    var s, i, j := t[a..b], c - a, d - a;
    forall k | 0 <= k < d - c ensures s[i..j][k] == t[c..d][k] {
      assert s[i..j][k] == s[i + k] && s[i + k] == t[a + i + k];
    }
  }

  /** Where the value of a name begins, or that there is none. */
  lemma LiteralIs(t: string, o: nat, q: nat, c: nat)
    requires o < q < |t| && c == SkipWs(t, q + 1)
    ensures c < |t| && t[c] == ':' ==>
              LiteralToken(t, o, q) == Name(t[o + 1..q], SkipWs(t, c + 1), Scalar(t, SkipWs(t, c + 1)))
    ensures c == |t| || t[c] != ':' ==> LiteralToken(t, o, q) == Text
  {}

  lemma QuotedIs(t: string, p: nat, q: nat)
    requires p < |t| && t[p] == '"' && Close(t, p + 1) == q < |t|
    ensures TokenAt(t, p) == LiteralToken(t, p, q) && After(t, p) == q + 1
  {}

  lemma NameCut(t: string, s: string, from: nat, to: nat, o: nat, q: nat, c: nat, v: nat)
    requires from <= o < q < c < v <= to < |t| && t[to] == '}' && |s| == to - from
    requires c == SkipWs(t, q + 1) && c - from == SkipWs(s, q - from + 1) && t[c] == ':' == s[c - from]
    requires v == SkipWs(t, c + 1) && v - from == SkipWs(s, c - from + 1)
    requires t[o + 1..q] == s[o - from + 1..q - from] && (v < to ==> s[v - from] == t[v])
    ensures LiteralToken(s, o - from, q - from) == CutToken(LiteralToken(t, o, q), from, to)
  {
    LiteralIs(t, o, q, c);
    LiteralIs(s, o - from, q - from, c - from);
  }

  /** The first character that is no blank behind position q, in both. */
  lemma GapCut(t: string, s: string, from: nat, to: nat, q: nat) returns (c: nat)
    requires from <= q < to < |t| && t[to] == '}' && s == t[from..to]
    ensures q < c <= to && c == SkipWs(t, q + 1) && c - from == SkipWs(s, q - from + 1)
    ensures c < to ==> s[c - from] == t[c]
  {
    c := SkipWs(t, q + 1);
    SpaceCut(t, s, from, to, q + 1);
  }

  lemma TextCut(t: string, s: string, from: nat, to: nat, o: nat, q: nat, c: nat)
    requires from <= o < q < c <= to < |t| && t[to] == '}' && |s| == to - from
    requires c == SkipWs(t, q + 1) && c - from == SkipWs(s, q - from + 1)
    requires c < to ==> s[c - from] == t[c] && t[c] != ':'
    ensures LiteralToken(s, o - from, q - from) == CutToken(LiteralToken(t, o, q), from, to)
  {
    LiteralIs(t, o, q, c);
    LiteralIs(s, o - from, q - from, c - from);
  }

  /** What follows a literal reads the same. */
  lemma LiteralCut(t: string, s: string, from: nat, to: nat, o: nat, q: nat)
    requires from <= o < q < to < |t| && t[to] == '}' && s == t[from..to]
    ensures LiteralToken(s, o - from, q - from) == CutToken(LiteralToken(t, o, q), from, to)
  {
    var c := GapCut(t, s, from, to, q);
    if c < to && t[c] == ':' {
      var v := GapCut(t, s, from, to, c);
      SliceOfSlice(t, from, to, o + 1, q);
      NameCut(t, s, from, to, o, q, c, v);
    } else {
      TextCut(t, s, from, to, o, q, c);
    }
  }

  lemma TokenCut(t: string, s: string, from: nat, to: nat, p: nat)
    requires from <= p < to < |t| && t[to] == '}' && After(t, p) <= to && s == t[from..to]
    ensures TokenAt(s, p - from) == CutToken(TokenAt(t, p), from, to)
    ensures After(s, p - from) == After(t, p) - from
  {
    assert s[p - from] == t[p];
    if t[p] == '"' {
      var q := Close(t, p + 1);
      CloseCut(t, s, from, to, p + 1);
      LiteralCut(t, s, from, to, p, q);
      QuotedIs(t, p, q);
      QuotedIs(s, p - from, q - from);
    }
  }

  lemma TokensCons(s: string, i: nat, k: Token, n: nat, rest: seq<Token>)
    requires i < |s| && TokenAt(s, i) == k && After(s, i) == n && Tokens(s, n) == rest
    ensures Tokens(s, i) == [k] + rest
  {}

  lemma {:induction false} BetweenCut(t: string, s: string, from: nat, to: nat, p: nat)
    requires from <= p <= to < |t| && t[to] == '}' && s == t[from..to] && Reaches(t, p, to)
    ensures Tokens(s, p - from) == CutAll(Between(t, p, to), from, to)
    decreases |t| - p
  {
    if p < to {
      var n := After(t, p);
      TokenCut(t, s, from, to, p);
      BetweenCut(t, s, from, to, n);
      TokensCons(s, p - from, CutToken(TokenAt(t, p), from, to), n - from, CutAll(Between(t, n, to), from, to));
      CutCons(TokenAt(t, p), Between(t, n, to), from, to);
    }
  }

  lemma CutCons(k: Token, toks: seq<Token>, from: nat, to: nat)
    ensures CutAll([k] + toks, from, to) == [CutToken(k, from, to)] + CutAll(toks, from, to)
  {
    assert ([k] + toks)[1..] == toks;
  }

  /** Cutting the text of an object out changes no token: reading the span find_obj gives
      yields, in order, the tokens of the whole text between the brace and its match. */
  lemma SpanIsTokens(t: string, v: nat)
    requires v < |t| && t[v] == '{' && MatchingBrace(Tokens(t, v), 0).Some?
    ensures var b := MatchingBrace(Tokens(t, v), 0).value;
            && v < b < |t| && Reaches(t, v + 1, b)
            && Tokens(t[v + 1..b], 0) == CutAll(Between(t, v + 1, b), v + 1, b)
  {
    TokensStep(t, v);
    MatchReaches(t, v, 0);
    var b := MatchingBrace(Tokens(t, v), 0).value;
    BetweenCut(t, t[v + 1..b], v + 1, b, v + 1);
  }

  // ------------------------------------------------------------------
  // apply_ctrl_fields

  /** What find_field finds in the section. */
  function Found(t: string, name: string): Option<nat> {
    if |name| + 2 >= PAT_CAP then None else FirstNamed(Tokens(t, 0), name)
  }

  /** What get_val accepts of that: no object and no array. */
  function Got(t: string, name: string): Option<nat> {
    if Found(t, name).Some? && Scalar(t, Found(t, name).value) then Found(t, name) else None
  }

  /** Where a field's value is read: under its name, else under its alias. */
  function Takes(t: string, f: Field): Option<nat> {
    if !f.ctrl then None
    else if Got(t, f.name).Some? || f.alias.None? then Got(t, f.name)
    else Got(t, f.alias.value)
  }

  /** A field set, and where its value stands. */
  datatype Setting = Setting(field: string, at: nat)

  function Walk(t: string, tbl: seq<Field>): seq<Setting> {
    if tbl == [] then []
    else
      var f := tbl[|tbl| - 1];
      Walk(t, tbl[..|tbl| - 1]) + if Takes(t, f).Some? then [Setting(f.name, Takes(t, f).value)] else []
  }

  predicate PlainFields(tbl: seq<Field>) {
    forall i :: 0 <= i < |tbl| ==> PlainName(tbl[i].name) && (tbl[i].alias.Some? ==> PlainName(tbl[i].alias.value))
  }

  method GetVal(t: string, name: string) returns (v: Option<nat>)
    requires PlainName(name)
    ensures v == Got(t, name)
  {
    v := FindField(t, name);
    if v.None? || v.value >= |t| || t[v.value] == '{' || t[v.value] == '[' { v := None; }
  }

  /** The walk over the field table. */
  method ApplyFields(t: string, tbl: seq<Field>) returns (r: seq<Setting>)
    requires PlainFields(tbl)
    ensures r == Walk(t, tbl)
  {
    r := [];
    var i := 0;
    while i < |tbl|
      invariant 0 <= i <= |tbl| && r == Walk(t, tbl[..i])
    {
      var f := tbl[i];
      assert tbl[..i + 1][..i] == tbl[..i];
      if f.ctrl {
        var v := GetVal(t, f.name);
        if v.None? && f.alias.Some? { v := GetVal(t, f.alias.value); }
        if v.Some? { r := r + [Setting(f.name, v.value)]; }
      }
      i := i + 1;
    }
    assert tbl[..i] == tbl;
  }

  lemma {:induction false} WalkHas(t: string, tbl: seq<Field>, s: Setting)
    ensures s in Walk(t, tbl) <==>
            exists i :: 0 <= i < |tbl| && tbl[i].name == s.field && Takes(t, tbl[i]) == Some(s.at)
    decreases |tbl|
  {
    if tbl != [] {
      var init, n := tbl[..|tbl| - 1], |tbl| - 1;
      WalkHas(t, init, s);
      if s in Walk(t, tbl) && s !in Walk(t, init) {
        assert tbl[n].name == s.field && Takes(t, tbl[n]) == Some(s.at);
      }
      if i :| 0 <= i < |tbl| && tbl[i].name == s.field && Takes(t, tbl[i]) == Some(s.at) {
        if i < n { assert init[i] == tbl[i]; }
      }
    }
  }

  // ------------------------------------------------------------------
  // No two names share a value

  /** Every name's value stands past v. */
  predicate AllPast(toks: seq<Token>, v: nat) {
    toks == [] || ((toks[0].Name? ==> toks[0].value > v) && AllPast(toks[1..], v))
  }

  lemma {:induction false} PastSooner(toks: seq<Token>, v: nat, w: nat)
    requires AllPast(toks, v) && w <= v
    ensures AllPast(toks, w)
  {
    if toks != [] { PastSooner(toks[1..], v, w); }
  }

  lemma {:induction false} ValuesPast(t: string, i: nat)
    requires i <= |t|
    ensures AllPast(Tokens(t, i), i)
    decreases |t| - i
  {
    if i < |t| {
      TokensStep(t, i);
      ValuesPast(t, After(t, i));
      PastSooner(Tokens(t, After(t, i)), After(t, i), i);
    }
  }

  lemma {:induction false} PastSpace(t: string, i: nat, v: nat)
    requires i <= |t| && AllPast(Tokens(t, SkipWs(t, i)), v)
    ensures AllPast(Tokens(t, i), v)
    decreases |t| - i
  {
    if i < |t| && IsWs(t[i]) {
      PastSpace(t, i + 1, v);
      TokensStep(t, i);
    }
  }

  lemma PastColon(t: string, c: nat, v: nat)
    requires c < |t| && t[c] == ':' && AllPast(Tokens(t, c + 1), v)
    ensures AllPast(Tokens(t, c), v)
  {
    TokensStep(t, c);
  }

  lemma LaterValues(t: string, i: nat)
    requires i < |t| && TokenAt(t, i).Name?
    ensures AllPast(Tokens(t, After(t, i)), TokenAt(t, i).value)
  {
    var q := Close(t, i + 1);
    var c := SkipWs(t, q + 1);
    QuotedIs(t, i, q);
    LiteralIs(t, i, q, c);
    GapPast(t, q + 1, c);
  }

  lemma GapPast(t: string, i: nat, c: nat)
    requires i <= |t| && c == SkipWs(t, i) < |t| && t[c] == ':'
    ensures AllPast(Tokens(t, i), SkipWs(t, c + 1))
  {
    var v := SkipWs(t, c + 1);
    ValuesPast(t, v);
    PastSpace(t, c + 1, v);
    PastColon(t, c, v);
    PastSpace(t, i, v);
  }

  // ------------------------------------------------------------------
  // The walk's name and the scan's member

  /** A member of this object itself, neither object nor array, has this name and value. */
  predicate MemberAt(toks: seq<Token>, depth: nat, name: string, v: nat) {
    toks != []
    && ((depth == 0 && toks[0] == Name(name, v, true)) || MemberAt(toks[1..], Nesting(toks[0], depth), name, v))
  }

  /** The first name token of this name, at whatever depth, is such a member. */
  predicate FirstIsMember(toks: seq<Token>, depth: nat, name: string) {
    toks != []
    && if toks[0].Name? && toks[0].name == name then depth == 0 && toks[0].scalar
       else FirstIsMember(toks[1..], Nesting(toks[0], depth), name)
  }

  lemma {:induction false} NotAt(toks: seq<Token>, depth: nat, name: string, v: nat)
    requires AllPast(toks, v)
    ensures !MemberAt(toks, depth, name, v) && FirstNamed(toks, name) != Some(v)
  {
    if toks != [] { NotAt(toks[1..], Nesting(toks[0], depth), name, v); }
  }

  /** What is looked up under one name is a member of another only by being both. */
  lemma {:induction false} FoundIsMember(t: string, i: nat, depth: nat, name: string, other: string, v: nat)
    requires i <= |t| && FirstNamed(Tokens(t, i), name) == Some(v) && MemberAt(Tokens(t, i), depth, other, v)
    ensures other == name && FirstIsMember(Tokens(t, i), depth, name)
    decreases |t| - i
  {
    TokensStep(t, i);
    var k := TokenAt(t, i);
    if k.Name? {
      LaterValues(t, i);
      NotAt(Tokens(t, After(t, i)), Nesting(k, depth), other, k.value);
      NotAt(Tokens(t, After(t, i)), Nesting(k, depth), name, k.value);
    }
    if !(k.Name? && k.name == name) {
      FoundIsMember(t, After(t, i), Nesting(k, depth), name, other, v);
    }
  }

  lemma {:induction false} MemberIsFound(t: string, i: nat, depth: nat, name: string) returns (v: nat)
    requires i <= |t| && FirstIsMember(Tokens(t, i), depth, name)
    ensures FirstNamed(Tokens(t, i), name) == Some(v) && MemberAt(Tokens(t, i), depth, name, v) && Scalar(t, v)
    decreases |t| - i
  {
    TokensStep(t, i);
    var k := TokenAt(t, i);
    if k.Name? && k.name == name {
      v := k.value;
    } else {
      v := MemberIsFound(t, After(t, i), Nesting(k, depth), name);
    }
  }

  // ------------------------------------------------------------------
  // Applied or reported

  /** Some field was set from a member of this name. */
  predicate Applied(t: string, tbl: seq<Field>, name: string) {
    exists s :: s in Walk(t, tbl) && MemberAt(Tokens(t, 0), 0, name, s.at)
  }

  /** The scan reports the name. */
  predicate Reported(t: string, sec: Section, name: string) {
    name in Unclaimed(Members(Tokens(t, 0), 0), sec)
  }

  /** It is the alias of a field whose proper name the section carries too. */
  predicate Superseded(t: string, tbl: seq<Field>, name: string) {
    exists i :: 0 <= i < |tbl| && tbl[i].ctrl && tbl[i].alias == Some(name) && Got(t, tbl[i].name).Some?
  }

  lemma {:induction false} UnclaimedHas(names: seq<string>, sec: Section, name: string)
    ensures name in Unclaimed(names, sec) <==> name in names && name != "" && !Accepted(sec.tbl, sec.extra, name)
  {
    if names != [] { UnclaimedHas(names[1..], sec, name); }
  }

  lemma AppliedIsFirst(t: string, tbl: seq<Field>, name: string)
    requires Applied(t, tbl, name)
    ensures InTable(tbl, name) && |name| + 2 < PAT_CAP && FirstIsMember(Tokens(t, 0), 0, name)
  {
    var s :| s in Walk(t, tbl) && MemberAt(Tokens(t, 0), 0, name, s.at);
    WalkHas(t, tbl, s);
    var i :| 0 <= i < |tbl| && tbl[i].name == s.field && Takes(t, tbl[i]) == Some(s.at);
    var f := tbl[i];
    var spelled := if Got(t, f.name).Some? then f.name else f.alias.value;
    assert Got(t, spelled) == Some(s.at);
    FoundIsMember(t, 0, 0, spelled, name, s.at);
  }

  lemma FirstIsApplied(t: string, tbl: seq<Field>, name: string)
    requires InTable(tbl, name) && |name| + 2 < PAT_CAP && FirstIsMember(Tokens(t, 0), 0, name)
    requires !Superseded(t, tbl, name)
    ensures Applied(t, tbl, name)
  {
    var i :| 0 <= i < |tbl| && tbl[i].ctrl && (name == tbl[i].name || tbl[i].alias == Some(name));
    var v := MemberIsFound(t, 0, 0, name);
    assert Got(t, name) == Some(v);
    assert Takes(t, tbl[i]) == Some(v);
    WalkHas(t, tbl, Setting(tbl[i].name, v));
    assert Setting(tbl[i].name, v) in Walk(t, tbl);
  }

  /** Every member of a section that is neither object nor array is applied, reported, taken
      outside the table or superseded by its field's proper name, if and only if the table
      does not know it or the first name token of its name in the whole section is such a
      member. A name is never both applied and reported. */
  lemma AppliedOrReported(t: string, sec: Section, name: string)
    requires name in Members(Tokens(t, 0), 0)
    ensures Applied(t, sec.tbl, name) || Reported(t, sec, name) || name in sec.extra || Superseded(t, sec.tbl, name)
            <==>
            || (name != "" && !Accepted(sec.tbl, sec.extra, name))
            || name in sec.extra || Superseded(t, sec.tbl, name)
            || (InTable(sec.tbl, name) && |name| + 2 < PAT_CAP && FirstIsMember(Tokens(t, 0), 0, name))
    ensures !(Applied(t, sec.tbl, name) && Reported(t, sec, name))
  {
    UnclaimedHas(Members(Tokens(t, 0), 0), sec, name);
    if Applied(t, sec.tbl, name) { AppliedIsFirst(t, sec.tbl, name); }
    if InTable(sec.tbl, name) && |name| + 2 < PAT_CAP && FirstIsMember(Tokens(t, 0), 0, name)
       && !Superseded(t, sec.tbl, name) {
      FirstIsApplied(t, sec.tbl, name);
    }
  }

  /** A name that comes first inside a nested object is looked up there: the field is set
      from a value of no member of this section. */
  lemma NestedIsTaken(t: string, tbl: seq<Field>, i: nat, other: string)
    requires i < |tbl| && tbl[i].ctrl && Got(t, tbl[i].name).Some?
    requires !FirstIsMember(Tokens(t, 0), 0, tbl[i].name)
    ensures var v := Got(t, tbl[i].name).value;
            Setting(tbl[i].name, v) in Walk(t, tbl) && !MemberAt(Tokens(t, 0), 0, other, v)
  {
    var v := Got(t, tbl[i].name).value;
    WalkHas(t, tbl, Setting(tbl[i].name, v));
    if MemberAt(Tokens(t, 0), 0, other, v) { FoundIsMember(t, 0, 0, tbl[i].name, other, v); }
  }

  // ------------------------------------------------------------------
  // Where the two part

  function Nested(): string { "\"a\":{\"x\":{}},\"x\":1" }

  /** A name of one letter at i, with its value next to the colon. */
  predicate LetterAt(t: string, i: nat, c: char) {
    && i + 4 < |t| && t[i] == '"' && t[i + 1] == c && t[i + 2] == '"' && t[i + 3] == ':'
    && c != '"' && c != '\\' && !IsWs(t[i + 4])
  }

  lemma LetterToken(t: string, i: nat, c: char)
    requires LetterAt(t, i, c)
    ensures TokenAt(t, i) == Name([c], i + 4, Scalar(t, i + 4)) && After(t, i) == i + 3
  {
    assert Close(t, i + 1) == Close(t, i + 2) == i + 2;
    QuotedIs(t, i, i + 2);
    LiteralIs(t, i, i + 2, i + 3);
    assert t[i + 1..i + 2] == [c];
  }

  lemma MarkSkips(t: string, i: nat, name: string)
    requires i < |t| && t[i] != '"'
    ensures FirstNamed(Tokens(t, i), name) == FirstNamed(Tokens(t, i + 1), name)
  {
    TokensStep(t, i);
  }

  lemma MembersMark(t: string, i: nat, depth: nat, more: nat, name: string)
    requires i < |t| && t[i] != '"' && more == Nesting(Mark(i, t[i]), depth)
    requires name in Members(Tokens(t, i + 1), more)
    ensures name in Members(Tokens(t, i), depth)
  {
    TokensStep(t, i);
  }

  lemma MembersLetter(t: string, i: nat, depth: nat, c: char, name: string)
    requires LetterAt(t, i, c) && name in Members(Tokens(t, i + 3), depth)
    ensures name in Members(Tokens(t, i), depth)
  {
    LetterToken(t, i, c);
    TokensStep(t, i);
  }

  lemma MemberHere(t: string, i: nat, c: char)
    requires LetterAt(t, i, c) && Scalar(t, i + 4)
    ensures [c] in Members(Tokens(t, i), 0)
  {
    LetterToken(t, i, c);
    TokensStep(t, i);
  }

  lemma FoundHere(t: string, i: nat, c: char, name: string)
    requires LetterAt(t, i, c)
    ensures FirstNamed(Tokens(t, i), name) ==
            if name == [c] then Some(i + 4) else FirstNamed(Tokens(t, i + 3), name)
  {
    LetterToken(t, i, c);
    TokensStep(t, i);
  }

  predicate Spelled(t: string) {
    && |t| == 18 && LetterAt(t, 0, 'a') && t[4] == '{' && LetterAt(t, 5, 'x') && t[9] == '{'
    && t[10] == '}' && t[11] == '}' && t[12] == ',' && LetterAt(t, 13, 'x') && t[17] == '1'
  }

  lemma NestedIs()
    ensures Spelled(Nested())
  {}

  lemma NestedFinds(t: string, name: string)
    requires Spelled(t) && name == ['x']
    ensures FirstNamed(Tokens(t, 0), name) == Some(9)
  {
    FoundHere(t, 0, 'a', name);
    MarkSkips(t, 3, name);
    MarkSkips(t, 4, name);
    FoundHere(t, 5, 'x', name);
  }

  lemma NestedRest(t: string, name: string)
    requires Spelled(t) && name == ['x']
    ensures name in Members(Tokens(t, 8), 1)
  {
    MemberHere(t, 13, 'x');
    MembersMark(t, 12, 0, 0, name);
    MembersMark(t, 11, 1, 0, name);
    MembersMark(t, 10, 2, 1, name);
    MembersMark(t, 9, 1, 2, name);
    MembersMark(t, 8, 1, 1, name);
  }

  lemma NestedHas(t: string, name: string)
    requires Spelled(t) && name == ['x']
    ensures name in Members(Tokens(t, 0), 0)
  {
    NestedRest(t, name);
    MembersLetter(t, 5, 1, 'x', name);
    MembersMark(t, 4, 0, 1, name);
    MembersMark(t, 3, 0, 0, name);
    MembersLetter(t, 0, 0, 'a', name);
  }

  /** Any section spelled like that, looked at through its lookup. */
  lemma SpelledIsLost(t: string, sec: Section, name: string)
    requires Spelled(t) && name == ['x'] && sec.tbl == [Field(name, None, true)] && sec.extra == []
    ensures name in Members(Tokens(t, 0), 0) && !Applied(t, sec.tbl, name) && !Reported(t, sec, name)
  {
    NestedFinds(t, name);
    NestedHas(t, name);
    if Applied(t, sec.tbl, name) {
      AppliedIsFirst(t, sec.tbl, name);
      var v := MemberIsFound(t, 0, 0, name);
    }
    assert sec.tbl[0].ctrl && name == sec.tbl[0].name;
    UnclaimedHas(Members(Tokens(t, 0), 0), sec, name);
  }

  /** A section with a member x whose lookup lands on an x inside another member: x is
      neither applied nor reported. */
  lemma ShadowedMember(width: string -> nat)
    ensures var sec := Section([Field("x", None, true)], [], width);
            && "x" in Members(Tokens(Nested(), 0), 0)
            && !Applied(Nested(), sec.tbl, "x") && !Reported(Nested(), sec, "x")
  {
    NestedIs();
    SpelledIsLost(Nested(), Section([Field("x", None, true)], [], width), "x");
  }
}
