/** Template substitution in partition inputs (crates/nclav-reconciler/src/reconcile.rs, `resolve_template`). */
module Template {
  import opened Prelude
  import opened Json

  // ----- the text operations used -----

  /** Unicode White_Space, the characters trimmed around a token name. */
  predicate IsSpace(c: char) {
    || '\U{0009}' <= c <= '\U{000D}' || c == ' ' || c == '\U{0085}' || c == '\U{00A0}' || c == '\U{1680}'
    || '\U{2000}' <= c <= '\U{200A}' || c == '\U{2028}' || c == '\U{2029}' || c == '\U{202F}'
    || c == '\U{205F}' || c == '\U{3000}'
  }

  function TrimStart(s: string): string {
    if s != [] && IsSpace(s[0]) then TrimStart(s[1..]) else s
  }

  function TrimEnd(s: string): string {
    if s != [] && IsSpace(s[|s| - 1]) then TrimEnd(s[..|s| - 1]) else s
  }

  function Trim(s: string): string {
    TrimEnd(TrimStart(s))
  }

  ghost predicate PairAt(s: string, c: char, i: int) {
    0 <= i < |s| - 1 && s[i] == c && s[i + 1] == c
  }

  /** Where the doubled character `cc` first occurs. */
  function FindPair(s: string, c: char): Option<nat> {
    if |s| < 2 then None
    else if s[0] == c && s[1] == c then Some(0)
    else
      var r := FindPair(s[1..], c);
      if r.Some? then Some(r.value + 1) else None
  }

  lemma {:induction false} FindPairMeaning(s: string, c: char)
    ensures var r := FindPair(s, c);
            && (r.Some? ==> PairAt(s, c, r.value) && forall j :: 0 <= j < r.value ==> !PairAt(s, c, j))
            && (r.None? ==> forall j :: !PairAt(s, c, j))
  {
    if |s| >= 2 && !(s[0] == c && s[1] == c) {
      FindPairMeaning(s[1..], c);
      forall j | 0 < j ensures PairAt(s, c, j) <==> PairAt(s[1..], c, j - 1) {
      }
    }
  }

  /** A closing pair behind an opening one starts after it. */
  lemma {:induction false} TokenEnds(t: string)
    ensures var s := FindPair(t, '{');
            s.Some? ==>
              && s.value + 2 <= |t| && t[s.value] == '{' && t[s.value + 1] == '{'
              && var e := FindPair(t[s.value..], '}');
                 e.Some? ==> 2 <= e.value && s.value + e.value + 2 <= |t|
                             && t[s.value + e.value] == '}' && t[s.value + e.value + 1] == '}'
  {
    FindPairMeaning(t, '{');
    var s := FindPair(t, '{');
    if s.Some? {
      FindPairMeaning(t[s.value..], '}');
      var e := FindPair(t[s.value..], '}');
      if e.Some? {
        assert PairAt(t[s.value..], '}', e.value);
      }
    }
  }

  /** The part before the first '.', and the part after it. */
  function SplitDot(s: string): Option<(string, string)> {
    if s == [] then None
    else if s[0] == '.' then Some(("", s[1..]))
    else
      var r := SplitDot(s[1..]);
      if r.Some? then Some(([s[0]] + r.value.0, r.value.1)) else None
  }

  // ----- token values -----

  /** The cut is at the first '.': nothing is lost, and no dot is left in front of it. */
  lemma {:induction false} SplitDotMeaning(s: string)
    ensures SplitDot(s).None? <==> '.' !in s
    ensures SplitDot(s).Some? ==> s == SplitDot(s).value.0 + "." + SplitDot(s).value.1 && '.' !in SplitDot(s).value.0
  {
    if s != [] && s[0] != '.' {
      SplitDotMeaning(s[1..]);
      assert s == [s[0]] + s[1..];
    }
  }

  /** The value of a token name, if it has one: `alias.key` or a context variable. */
  function Resolve(inner: string, imports: map<string, Json>, ctx: map<string, string>): Option<string> {
    match SplitDot(inner)
    case Some((alias, key)) =>
      if alias !in imports then None
      else
        var outputs := Get(imports[alias], "outputs");
        if outputs.None? then None
        else
          var v := Get(outputs.value, key);
          if v.None? then None else AsString(v.value)
    case None => if inner in ctx then Some(ctx[inner]) else None
  }

  // ----- the one-pass meaning of a template -----

  datatype Segment = Lit(text: string) | Tok(raw: string)

  /** The text a segment was read from. */
  function Source(seg: Segment): string {
    match seg
    case Lit(text) => text
    case Tok(raw) => "{{" + raw + "}}"
  }

  /** The text a segment stands for; a token without a value stays as written. */
  function Value(seg: Segment, imports: map<string, Json>, ctx: map<string, string>): string {
    match seg
    case Lit(text) => text
    case Tok(raw) =>
      var v := Resolve(Trim(raw), imports, ctx);
      if v.Some? then v.value else Source(seg)
  }

  datatype Cutting = NoToken | Cutting(before: string, raw: string, after: string)

  /** The first token of a template, and the text on either side of it. */
  function CutFirst(t: string): (r: Cutting)
    ensures r.Cutting? ==> |r.before| + |r.raw| + |r.after| + 4 == |t|
  {
    TokenEnds(t);
    var s := FindPair(t, '{');
    if s.None? then NoToken
    else
      var e := FindPair(t[s.value..], '}');
      if e.None? then NoToken else
      var close := s.value + e.value + 2;
      Cutting(t[..s.value], t[s.value + 2..close - 2], t[close..])
  }

  /** A template cut into tokens and the literal text around them; it ends with a literal. */
  function Parse(t: string): (r: seq<Segment>)
    ensures r != [] && r[|r| - 1].Lit?
    decreases |t|
  {
    match CutFirst(t)
    case NoToken => [Lit(t)]
    case Cutting(before, raw, after) => [Lit(before)] + ([Tok(raw)] + Parse(after))
  }

  function SourceOf(segs: seq<Segment>): string {
    if segs == [] then "" else Source(segs[0]) + SourceOf(segs[1..])
  }

  function ValueOf(segs: seq<Segment>, imports: map<string, Json>, ctx: map<string, string>): string {
    if segs == [] then "" else Value(segs[0], imports, ctx) + ValueOf(segs[1..], imports, ctx)
  }

  /** Expansion: the template is cut once, and each piece is replaced by its value. */
  function Expand(t: string, imports: map<string, Json>, ctx: map<string, string>): string {
    ValueOf(Parse(t), imports, ctx)
  }

  lemma {:induction false} SourceCons(a: Segment, rest: seq<Segment>)
    ensures SourceOf([a] + rest) == Source(a) + SourceOf(rest)
  {
    assert ([a] + rest)[1..] == rest;
  }

  lemma {:induction false} ValueCons(a: Segment, rest: seq<Segment>, imports: map<string, Json>,
                                     ctx: map<string, string>)
    ensures ValueOf([a] + rest, imports, ctx) == Value(a, imports, ctx) + ValueOf(rest, imports, ctx)
  {
    assert ([a] + rest)[1..] == rest;
  }

  lemma {:induction false} ThreeParts(t: string, s: nat, close: nat)
    requires s <= close <= |t|
    ensures t == t[..s] + (t[s..close] + t[close..])
  {
  }

  lemma {:induction false} TokenText(t: string, s: nat, close: nat)
    requires s + 4 <= close <= |t|
    requires t[s] == '{' && t[s + 1] == '{' && t[close - 2] == '}' && t[close - 1] == '}'
    ensures t[s..close] == Source(Tok(t[s + 2..close - 2]))
  {
    Middle(t, s, s + 2, close - 2, close);
    assert t[s..s + 2] == "{{";
    assert t[close - 2..close] == "}}";
  }

  lemma {:induction false} Middle(t: string, s: nat, m: nat, n: nat, close: nat)
    requires s <= m <= n <= close <= |t|
    ensures t[s..close] == t[s..m] + t[m..n] + t[n..close]
  {
  }

  lemma {:induction false} CutLossless(t: string)
    requires CutFirst(t).Cutting?
    ensures var c := CutFirst(t); t == c.before + (Source(Tok(c.raw)) + c.after)
  {
    hide FindPair, Source;
    TokenEnds(t);
    var s := FindPair(t, '{').value;
    var close := s + FindPair(t[s..], '}').value + 2;
    ThreeParts(t, s, close);
    TokenText(t, s, close);
  }

  /** Cutting loses nothing. */
  lemma {:induction false} ParseLossless(t: string)
    ensures SourceOf(Parse(t)) == t
    decreases |t|
  {
    match CutFirst(t)
    case NoToken =>
      SourceCons(Lit(t), []);
    case Cutting(before, raw, after) =>
      ParseLossless(after);
      SourceCons(Tok(raw), Parse(after));
      SourceCons(Lit(before), [Tok(raw)] + Parse(after));
      CutLossless(t);
  }

  lemma {:induction false} ExpandStep(t: string, imports: map<string, Json>, ctx: map<string, string>)
    ensures var c := CutFirst(t);
            Expand(t, imports, ctx) ==
            if c.NoToken? then t else c.before + (Value(Tok(c.raw), imports, ctx) + Expand(c.after, imports, ctx))
  {
    match CutFirst(t)
    case NoToken =>
      ValueCons(Lit(t), [], imports, ctx);
      assert [Lit(t)] + [] == [Lit(t)];
    case Cutting(before, raw, after) =>
      ValueCons(Tok(raw), Parse(after), imports, ctx);
      ValueCons(Lit(before), [Tok(raw)] + Parse(after), imports, ctx);
  }

  // ----- the loop -----

  lemma {:induction false} NothingLeft(rest: string, imports: map<string, Json>, ctx: map<string, string>)
    requires var s := FindPair(rest, '{'); s.None? || (s.value <= |rest| && FindPair(rest[s.value..], '}').None?)
    ensures Expand(rest, imports, ctx) == rest
  {
    hide FindPair, Expand;
    ExpandStep(rest, imports, ctx);
  }

  /** One turn of the loop: rewrite the next token, or skip it, or report that none is left. */
  method RewriteNext(text: string, from: nat, imports: map<string, Json>, ctx: map<string, string>)
    returns (found: bool, result: string, next: nat)
    requires from <= |text|
    ensures !found ==> Expand(text[from..], imports, ctx) == text[from..]
    ensures found ==>
              && next <= |result| && |result| - next < |text| - from
              && result[..next] + Expand(result[next..], imports, ctx) == text[..from]
                  + Expand(text[from..], imports, ctx)
  {
    hide FindPair, Resolve, Trim, Expand;
    TokenEnds(text[from..]);
    found, result, next := false, text, from;
    var start := FindPair(text[from..], '{');
    if start.None? {
      NothingLeft(text[from..], imports, ctx);
      return;
    }
    var absStart := from + start.value;
    SliceBehind(text, from, start.value, |text| - from);
    var end := FindPair(text[absStart..], '}');
    if end.None? {
      NothingLeft(text[from..], imports, ctx);
      return;
    }
    found := true;
    var absEnd := absStart + end.value + 2;
    Replaced(text, from, absStart, absEnd, imports, ctx);
    var inner := Trim(text[absStart + 2..absEnd - 2]);
    var value := Resolve(inner, imports, ctx);
    if value.Some? {
      result := text[..absStart] + value.value + text[absEnd..];
      next := absStart + |value.value|;
    } else {
      next := absEnd;
    }
  }

  /** `resolve_template`: rewrite the string in place, searching on behind each replacement. */
  method ResolveTemplate(template: string, imports: map<string, Json>, ctx: map<string, string>)
    returns (result: string)
    ensures result == Expand(template, imports, ctx)
  {
    result := template;
    var searchStart: nat := 0;
    while true
      invariant searchStart <= |result|
      invariant result[..searchStart] + Expand(result[searchStart..], imports, ctx) == Expand(template, imports, ctx)
      decreases |result| - searchStart
    {
      var found, rewritten, next := RewriteNext(result, searchStart, imports, ctx);
      if !found {
        break;
      }
      result, searchStart := rewritten, next;
    }
    assert result == result[..searchStart] + result[searchStart..];
  }

  lemma {:induction false} CutEnds(text: string, from: nat, s: nat, e: nat)
    requires from <= s <= e - 2 && s <= |text|
    requires FindPair(text[from..], '{') == Some(s - from) && FindPair(text[s..], '}') == Some(e - s - 2)
    ensures s + 4 <= e <= |text|
    ensures CutFirst(text[from..])
            == Cutting(text[from..][..s - from], text[from..][s - from + 2..e - from - 2], text[from..][e - from..])
  {
    hide FindPair;
    assert text[from..][s - from..] == text[s..];
    TokenEnds(text[from..]);
  }

  /** What one turn of the loop keeps: the finished part grows by the value of a token. */
  lemma {:induction false} Replaced(text: string, from: nat, s: nat, e: nat, imports: map<string, Json>,
                                    ctx: map<string, string>)
    requires from <= s <= e - 2 && s <= |text|
    requires FindPair(text[from..], '{') == Some(s - from) && FindPair(text[s..], '}') == Some(e - s - 2)
    ensures s + 4 <= e <= |text|
    ensures var tok := Tok(text[s + 2..e - 2]);
            var v := Value(tok, imports, ctx);
            var next := text[..s] + v + text[e..];
            && next[..s + |v|] + Expand(next[s + |v|..], imports, ctx) == text[..from]
                + Expand(text[from..], imports, ctx)
            && (v == Source(tok) ==> next == text && s + |v| == e)
  {
    var rest := text[from..];
    assert rest[s - from..] == text[s..];
    var cut := CutFirst(rest);
    CutEnds(text, from, s, e);
    Positions(text, from, s, e);
    ExpandStep(rest, imports, ctx);
    var v := Value(Tok(cut.raw), imports, ctx);
    Rejoin(text[..s], v, text[e..]);
    Regroup(text[..from], cut.before, v, Expand(cut.after, imports, ctx));
    assert text == text[..e] + text[e..];
  }

  lemma {:induction false} Regroup(a: string, b: string, c: string, d: string)
    ensures a + (b + (c + d)) == ((a + b) + c) + d
  {
  }

  lemma {:induction false} Positions(text: string, from: nat, s: nat, e: nat)
    requires from <= s && s + 4 <= e <= |text|
    requires CutFirst(text[from..])
             == Cutting(text[from..][..s - from], text[from..][s - from + 2..e - from - 2], text[from..][e - from..])
    ensures var cut := CutFirst(text[from..]);
            && text[s + 2..e - 2] == cut.raw
            && text[..s] == text[..from] + cut.before
            && text[e..] == cut.after
            && text[..e] == (text[..from] + cut.before) + Source(Tok(cut.raw))
  {
    hide FindPair, CutFirst, Source;
    var rest, m, n := text[from..], s - from, e - from;
    var cut := CutFirst(rest);
    SliceBehind(text, from, m + 2, n - 2);
    SliceBehind(text, from, n, |rest|);
    assert text[..s] == text[..from] + rest[..m];
    assert text[..e] == text[..from] + rest[..n];
    CutLossless(rest);
    Assoc(cut.before, Source(Tok(cut.raw)), cut.after);
    PrefixOf(rest, cut.before + Source(Tok(cut.raw)), cut.after);
    Assoc(text[..from], cut.before, Source(Tok(cut.raw)));
  }

  lemma {:induction false} SliceBehind(text: string, from: nat, m: nat, n: nat)
    requires from <= |text| && m <= n <= |text| - from
    ensures text[from..][m..n] == text[from + m..from + n]
  {
  }

  lemma {:induction false} PrefixOf(s: string, a: string, b: string)
    requires s == a + b
    ensures s[..|a|] == a
  {
  }

  lemma {:induction false} Rejoin(a: string, v: string, b: string)
    ensures (a + v + b)[..|a| + |v|] == a + v && (a + v + b)[|a| + |v|..] == b
  {
  }

  /** `resolve_inputs`: every input value expanded, under its own key. */
  function ResolveInputs(inputs: map<string, string>, imports: map<string, Json>, ctx: map<string, string>)
    : map<string, string>
  {
    map k | k in inputs :: Expand(inputs[k], imports, ctx)
  }

  // ----- concatenation -----

  /** What is left of a template after its last token. */
  function Tail(t: string): string {
    var p := Parse(t);
    p[|p| - 1].text
  }

  /** Nothing is open at the end: the tail has no "{{" and does not stop on a '{'. */
  predicate CleanTail(t: string) {
    NoOpening(Tail(t))
  }

  predicate NoOpening(t: string) {
    FindPair(t, '{').None? && (t == "" || t[|t| - 1] != '{')
  }

  lemma {:induction false} TailStep(t: string)
    ensures CutFirst(t).NoToken? ==> Tail(t) == t
    ensures CutFirst(t).Cutting? ==> Tail(t) == Tail(CutFirst(t).after)
  {
  }

  lemma {:induction false} FirstIs(s: string, c: char, i: nat)
    requires PairAt(s, c, i) && forall j :: 0 <= j < i ==> !PairAt(s, c, j)
    ensures FindPair(s, c) == Some(i)
  {
    FindPairMeaning(s, c);
  }

  lemma {:induction false} FindPairPrefix(a: string, b: string, c: char)
    requires FindPair(a, c).Some?
    ensures FindPair(a + b, c) == FindPair(a, c)
  {
    hide FindPair;
    var i := FindPair(a, c).value;
    FindPairMeaning(a, c);
    assert PairAt(a + b, c, i);
    forall j | 0 <= j < i ensures !PairAt(a + b, c, j) {
      assert !PairAt(a, c, j);
    }
    FirstIs(a + b, c, i);
  }

  /** A token that is complete in `a` is the same token of `a + b`. */
  lemma {:induction false} CutOfConcat(a: string, b: string)
    requires CutFirst(a).Cutting?
    ensures CutFirst(a + b) == CutFirst(a).(after := CutFirst(a).after + b)
  {
    hide FindPair;
    TokenEnds(a);
    var s := FindPair(a, '{').value;
    FindPairPrefix(a, b, '{');
    assert (a + b)[s..] == a[s..] + b;
    FindPairPrefix(a[s..], b, '}');
    var e := s + FindPair(a[s..], '}').value + 2;
    assert (a + b)[..s] == a[..s] && (a + b)[s + 2..e - 2] == a[s + 2..e - 2];
    assert (a + b)[e..] == a[e..] + b;
  }

  lemma {:induction false} FindPairBehind(a: string, b: string)
    requires NoOpening(a)
    ensures FindPair(b, '{').None? ==> FindPair(a + b, '{').None?
    ensures FindPair(b, '{').Some? ==> FindPair(a + b, '{') == Some(|a| + FindPair(b, '{').value)
  {
    hide FindPair;
    FindPairMeaning(a, '{');
    FindPairMeaning(b, '{');
    FindPairMeaning(a + b, '{');
    forall j ensures PairAt(a + b, '{', j) <==> PairAt(b, '{', j - |a|) {
      assert !PairAt(a, '{', j);
    }
    var g := FindPair(b, '{');
    if g.Some? {
      assert PairAt(a + b, '{', |a| + g.value);
      FirstIs(a + b, '{', |a| + g.value);
    }
  }

  lemma {:induction false} CutShape(t: string, s: nat, e: nat)
    requires FindPair(t, '{') == Some(s) && s <= |t| && FindPair(t[s..], '}') == Some(e)
    ensures 2 <= e && s + e + 2 <= |t| && CutFirst(t) == Cutting(t[..s], t[s + 2..s + e], t[s + e + 2..])
  {
    hide FindPair;
    TokenEnds(t);
  }

  /** With nothing open in front, the first token of `a + b` is the first token of `b`. */
  lemma {:induction false} CutBehind(a: string, b: string)
    requires NoOpening(a)
    ensures CutFirst(b).NoToken? ==> CutFirst(a + b).NoToken?
    ensures CutFirst(b).Cutting? ==> CutFirst(a + b) == CutFirst(b).(before := a + CutFirst(b).before)
  {
    hide FindPair;
    FindPairBehind(a, b);
    var g := FindPair(b, '{');
    if g.Some? {
      TokenEnds(b);
      SlicesBehind(a, b, g.value, |b|);
      var e := FindPair(b[g.value..], '}');
      if e.Some? {
        TokenBehind(a, b, g.value, e.value);
      }
    }
  }

  lemma {:induction false} TokenBehind(a: string, b: string, s: nat, e: nat)
    requires FindPair(b, '{') == Some(s) && s <= |b| && FindPair(b[s..], '}') == Some(e)
    requires FindPair(a + b, '{') == Some(|a| + s) && (a + b)[|a| + s..] == b[s..]
    ensures CutFirst(b).Cutting? && CutFirst(a + b) == CutFirst(b).(before := a + CutFirst(b).before)
  {
    hide FindPair, CutFirst;
    CutShape(b, s, e);
    CutShape(a + b, |a| + s, e);
    SlicesBehind(a, b, s, |b|);
    SlicesBehind(a, b, s + 2, s + e);
    SlicesBehind(a, b, s + e + 2, |b|);
  }

  lemma {:induction false} SlicesBehind(a: string, b: string, i: nat, j: nat)
    requires i <= j <= |b|
    ensures (a + b)[|a| + i..|a| + j] == b[i..j] && (a + b)[|a| + i..] == b[i..]
    ensures (a + b)[..|a| + i] == a + b[..i]
  {
  }

  lemma {:induction false} CleanTailDistributes(a: string, b: string, imports: map<string, Json>,
                                                ctx: map<string, string>)
    requires CleanTail(a)
    ensures Expand(a + b, imports, ctx) == Expand(a, imports, ctx) + Expand(b, imports, ctx)
    decreases |a|
  {
    TailStep(a);
    ExpandStep(a, imports, ctx);
    ExpandStep(a + b, imports, ctx);
    match CutFirst(a)
    case Cutting(before, raw, after) =>
      CutOfConcat(a, b);
      CleanTailDistributes(after, b, imports, ctx);
      var v, x, y := Value(Tok(raw), imports, ctx), Expand(after, imports, ctx), Expand(b, imports, ctx);
      Assoc(v, x, y);
      Assoc(before, v + x, y);
    case NoToken =>
      CutBehind(a, b);
      ExpandStep(b, imports, ctx);
      if CutFirst(b).Cutting? {
        var c := CutFirst(b);
        Assoc(a, c.before, Value(Tok(c.raw), imports, ctx) + Expand(c.after, imports, ctx));
      }
  }

  /** Some values of the variables give a token name a value of one's choice. */
  lemma {:induction false} SomeEnvironment(inner: string, value: string)
    returns (imports: map<string, Json>, ctx: map<string, string>)
    ensures Resolve(inner, imports, ctx) == Some(value)
  {
    imports, ctx := map[], map[];
    match SplitDot(inner)
    case Some((alias, key)) =>
      imports := map[alias := JObj([Field("outputs", JObj([Field(key, JStr(value))]))])];
    case None =>
      ctx := map[inner := value];
  }

  /** An opening left at the end of `a` can be completed by what follows, and then the law fails. */
  lemma {:induction false} OpenTailBreaks(a: string)
    returns (b: string, imports: map<string, Json>, ctx: map<string, string>)
    requires !CleanTail(a)
    ensures Expand(a + b, imports, ctx) != Expand(a, imports, ctx) + Expand(b, imports, ctx)
    decreases |a|
  {
    TailStep(a);
    match CutFirst(a)
    case Cutting(before, raw, after) =>
      b, imports, ctx := OpenTailBreaks(after);
      CutOfConcat(a, b);
      ExpandStep(a, imports, ctx);
      ExpandStep(a + b, imports, ctx);
      var v, x, y := Value(Tok(raw), imports, ctx), Expand(after, imports, ctx), Expand(b, imports, ctx);
      Assoc(v, x, y);
      Assoc(before, v + x, y);
      Cancel(before, v + Expand(after + b, imports, ctx), v + (x + y));
      Cancel(v, Expand(after + b, imports, ctx), x + y);
    case NoToken =>
      b, imports, ctx := OpenLiteralBreaks(a);
  }

  lemma {:induction false} Cancel(p: string, x: string, y: string)
    ensures p + x == p + y <==> x == y
  {
    assert x == (p + x)[|p|..] && y == (p + y)[|p|..];
  }

  lemma {:induction false} OpenLiteralBreaks(a: string)
    returns (b: string, imports: map<string, Json>, ctx: map<string, string>)
    requires CutFirst(a).NoToken? && !NoOpening(a)
    ensures Expand(a + b, imports, ctx) != Expand(a, imports, ctx) + Expand(b, imports, ctx)
  {
    if FindPair(a, '{').Some? {
      b := "}}";
      Completed(a, b);
    } else {
      b := "{}}";
      Completed(a, b);
    }
    var c := CutFirst(a + b);
    imports, ctx := SomeEnvironment(Trim(c.raw), "");
    ExpandStep(a, imports, ctx);
    ExpandStep(b, imports, ctx);
    ExpandStep(a + b, imports, ctx);
    ExpandStep(c.after, imports, ctx);
  }

  /** Where the token that the completing text closes begins. */
  lemma {:induction false} PendingStart(a: string, b: string) returns (s: nat)
    requires !NoOpening(a) && b == if FindPair(a, '{').Some? then "}}" else "{}}"
    ensures s <= |a| && FindPair(a + b, '{') == Some(s)
    ensures if FindPair(a, '{').Some? then FindPair(a, '{') == Some(s) else s == |a| - 1 && a[s] == '{'
  {
    hide FindPair;
    if FindPair(a, '{').Some? {
      s := FindPair(a, '{').value;
      FindPairPrefix(a, b, '{');
      FindPairMeaning(a, '{');
    } else {
      s := |a| - 1;
      FindPairMeaning(a, '{');
      assert PairAt(a + b, '{', s);
      forall j | 0 <= j < s ensures !PairAt(a + b, '{', j) {
        assert !PairAt(a, '{', j);
      }
      FirstIs(a + b, '{', s);
    }
  }

  lemma {:induction false} ShortHasNoToken(t: string)
    requires |t| < 4
    ensures CutFirst(t).NoToken?
  {
    TokenEnds(t);
  }

  lemma {:induction false} DropConcat(a: string, b: string, s: nat)
    requires s <= |a|
    ensures (a + b)[s..] == a[s..] + b
  {
  }

  /** A closing pair that needs `b` is not followed by more than one character. */
  lemma {:induction false} PendingEnd(u: string, b: string)
    requires (FindPair(u, '}').None? && b == "}}") || (u == "{" && b == "{}}")
    ensures FindPair(u + b, '}').Some? && FindPair(u + b, '}').value >= |u + b| - 3
  {
    hide FindPair;
    var t := u + b;
    assert PairAt(t, '}', |t| - 2);
    FindPairMeaning(t, '}');
    FindPairMeaning(u, '}');
    var e := FindPair(t, '}').value;
    assert e + 1 < |u| ==> PairAt(u, '}', e);
  }

  /** The completing text closes the pending token; at most one '}' is left over. */
  lemma {:induction false} Completed(a: string, b: string)
    requires CutFirst(a).NoToken? && !NoOpening(a)
    requires b == if FindPair(a, '{').Some? then "}}" else "{}}"
    ensures CutFirst(b).NoToken?
    ensures CutFirst(a + b).Cutting? && CutFirst(CutFirst(a + b).after).NoToken?
  {
    ShortHasNoToken(b);
    var s := PendingStart(a, b);
    hide FindPair;
    DropConcat(a, b, s);
    if FindPair(a, '{').None? {
      assert a[s..] == "{";
    }
    PendingEnd(a[s..], b);
    TokenEnds(a + b);
    ShortHasNoToken(CutFirst(a + b).after);
  }

  /** Expansion distributes over concatenation after `a`, whatever follows, exactly when `a` ends clean. */
  lemma {:induction false} DistributesIffCleanTail(a: string)
    ensures CleanTail(a) <==>
            forall b, imports, ctx :: Expand(a + b, imports, ctx) == Expand(a, imports, ctx) + Expand(b, imports, ctx)
  {
    if CleanTail(a) {
      forall b, imports, ctx ensures Expand(a + b, imports, ctx) == Expand(a, imports, ctx) + Expand(b, imports, ctx) {
        CleanTailDistributes(a, b, imports, ctx);
      }
    } else {
      var b, imports, ctx := OpenTailBreaks(a);
    }
  }

  // ----- what a token in a template comes to -----

  /** Unicode White_Space, character by character. */
  const WHITE_SPACE := "\U{0009}\U{000A}\U{000B}\U{000C}\U{000D} \U{0085}\U{00A0}\U{1680}" +
                       "\U{2000}\U{2001}\U{2002}\U{2003}\U{2004}\U{2005}\U{2006}\U{2007}\U{2008}" +
                       "\U{2009}\U{200A}\U{2028}\U{2029}\U{202F}\U{205F}\U{3000}"

  ghost predicate Blank(s: string) {
    forall i :: 0 <= i < |s| ==> s[i] in WHITE_SPACE
  }

  /** A name as it can stand between the blanks of a token: no blank at either end, no closing brace. */
  ghost predicate Bare(n: string) {
    '}' !in n && (n != "" ==> n[0] !in WHITE_SPACE && n[|n| - 1] !in WHITE_SPACE)
  }

  lemma {:induction false} SpaceIsWhite(c: char)
    ensures IsSpace(c) <==> c in WHITE_SPACE
  {
    if IsSpace(c) {
      SpaceIsListed(c);
    }
  }

  lemma {:induction false} SpaceIsListed(c: char)
    requires IsSpace(c)
    ensures c in WHITE_SPACE
  {
    var w := WHITE_SPACE;
    assert |w| == 25;
    var k := if c <= '\U{000D}' then (c as int) - 9 else if c == ' ' then 5 else if c == '\U{0085}' then 6
             else if c == '\U{00A0}' then 7 else if c == '\U{1680}' then 8
             else if c <= '\U{200A}' then (c as int) - 0x2000 + 9
             else if c == '\U{2028}' then 20 else if c == '\U{2029}' then 21 else if c == '\U{202F}' then 22
             else if c == '\U{205F}' then 23 else 24;
    assert w[k] == c;
  }

  lemma {:induction false} TrimStartBlank(x: string, s: string)
    requires Blank(x) && (s != "" ==> s[0] !in WHITE_SPACE)
    ensures TrimStart(x + s) == s
  {
    if x == "" {
      assert x + s == s;
      if s != "" {
        SpaceIsWhite(s[0]);
      }
    } else {
      SpaceIsWhite(x[0]);
      assert (x + s)[1..] == x[1..] + s;
      TrimStartBlank(x[1..], s);
    }
  }

  lemma {:induction false} TrimEndBlank(s: string, y: string)
    requires Blank(y) && (s != "" ==> s[|s| - 1] !in WHITE_SPACE)
    ensures TrimEnd(s + y) == s
  {
    if y == "" {
      assert s + y == s;
      if s != "" {
        SpaceIsWhite(s[|s| - 1]);
      }
    } else {
      SpaceIsWhite(y[|y| - 1]);
      assert (s + y)[..|s + y| - 1] == s + y[..|y| - 1];
      TrimEndBlank(s, y[..|y| - 1]);
    }
  }

  lemma {:induction false} TrimBlanks(x: string, n: string, y: string)
    requires Blank(x) && Blank(y) && Bare(n)
    ensures Trim(x + n + y) == n
  {
    if n == "" {
      assert x + n + y == (x + y) + "";
      TrimStartBlank(x + y, "");
    } else {
      assert x + n + y == x + (n + y);
      TrimStartBlank(x, n + y);
      TrimEndBlank(n, y);
    }
  }

  lemma {:induction false} SplitAt(alias: string, key: string)
    requires '.' !in alias
    ensures SplitDot(alias + "." + key) == Some((alias, key))
  {
    if alias == "" {
      assert (alias + "." + key)[1..] == key;
    } else {
      assert alias == [alias[0]] + alias[1..];
      assert (alias + "." + key)[1..] == alias[1..] + "." + key;
      SplitAt(alias[1..], key);
    }
  }

  lemma {:induction false} BlankHasNoBrace(s: string)
    requires Blank(s)
    ensures '}' !in s
  {
    SpaceIsWhite('}');
  }

  lemma {:induction false} CutToken(raw: string)
    requires '}' !in raw
    ensures CutFirst("{{" + raw + "}}") == Cutting("", raw, "")
  {
    hide FindPair;
    var t := "{{" + raw + "}}";
    assert PairAt(t, '{', 0);
    FirstIs(t, '{', 0);
    assert PairAt(t, '}', |t| - 2);
    forall j | 0 <= j < |t| - 2 ensures !PairAt(t, '}', j) {
      if 2 <= j {
        assert t[j] == raw[j - 2];
      }
    }
    FirstIs(t, '}', |t| - 2);
    CutShape(t, 0, |t| - 2);
  }

  /** A token between two texts is replaced in its place; what stands around it is expanded on its own. */
  lemma {:induction false} TokenInPlace(front: string, raw: string, behind: string, imports: map<string, Json>,
                                        ctx: map<string, string>)
    requires CleanTail(front) && '}' !in raw
    ensures Expand(front + ("{{" + raw + "}}" + behind), imports, ctx)
            == Expand(front, imports, ctx) + (Value(Tok(raw), imports, ctx) + Expand(behind, imports, ctx))
  {
    var tok := "{{" + raw + "}}";
    CutToken(raw);
    CleanTailDistributes(front, tok + behind, imports, ctx);
    CutOfConcat(tok, behind);
    ExpandStep(tok + behind, imports, ctx);
    var rest := Value(Tok(raw), imports, ctx) + Expand(behind, imports, ctx);
    assert "" + rest == rest;
    assert "" + behind == behind;
  }

  /** Text in which no opening pair is followed by a closing one stays as it is. */
  lemma {:induction false} NoTokenIsVerbatim(t: string, imports: map<string, Json>, ctx: map<string, string>)
    requires forall i, j :: PairAt(t, '{', i) && PairAt(t, '}', j) ==> j < i
    ensures Expand(t, imports, ctx) == t
  {
    hide FindPair, Expand;
    FindPairMeaning(t, '{');
    var s := FindPair(t, '{');
    if s.Some? {
      var rest := t[s.value..];
      FindPairMeaning(rest, '}');
      var e := FindPair(rest, '}');
      assert e.Some? ==> PairAt(t, '}', s.value + e.value);
    }
    NothingLeft(t, imports, ctx);
  }

  /** A name without a dot stands for the context variable; without one the token stays as written. */
  lemma {:induction false} ContextToken(front: string, x: string, n: string, y: string, behind: string,
                                        imports: map<string, Json>, ctx: map<string, string>)
    requires CleanTail(front) && Blank(x) && Blank(y) && Bare(n) && '.' !in n
    ensures var tok := "{{" + (x + n + y) + "}}";
            Expand(front + (tok + behind), imports, ctx)
            == Expand(front, imports, ctx) + ((if n in ctx then ctx[n] else tok) + Expand(behind, imports, ctx))
  {
    hide Expand, CleanTail;
    TrimBlanks(x, n, y);
    SplitDotMeaning(n);
    BlankHasNoBrace(x);
    BlankHasNoBrace(y);
    TokenInPlace(front, x + n + y, behind, imports, ctx);
  }

  /** The handle of the import has, under "outputs", this text under this key. */
  predicate HasOutput(imports: map<string, Json>, alias: string, key: string, s: string) {
    && alias in imports
    && var outputs := Get(imports[alias], "outputs");
    && outputs.Some? && Get(outputs.value, key) == Some(JStr(s))
  }

  /** `alias.key` stands for that output of the import; without one the token stays as written. */
  lemma {:induction false} ImportToken(front: string, x: string, alias: string, key: string, y: string, behind: string,
                                       imports: map<string, Json>, ctx: map<string, string>)
    requires CleanTail(front) && Blank(x) && Blank(y) && Bare(alias + "." + key) && '.' !in alias
    ensures var tok := "{{" + (x + (alias + "." + key) + y) + "}}";
            var done := Expand(front + (tok + behind), imports, ctx);
            && (forall s :: HasOutput(imports, alias, key, s) ==>
                  done == Expand(front, imports, ctx) + (s + Expand(behind, imports, ctx)))
            && ((forall s :: !HasOutput(imports, alias, key, s)) ==>
                  done == Expand(front, imports, ctx) + (tok + Expand(behind, imports, ctx)))
  {
    hide Expand, CleanTail;
    var n := alias + "." + key;
    TrimBlanks(x, n, y);
    SplitAt(alias, key);
    BlankHasNoBrace(x);
    BlankHasNoBrace(y);
    TokenInPlace(front, x + n + y, behind, imports, ctx);
    var v := Resolve(n, imports, ctx);
    assert v.Some? ==> HasOutput(imports, alias, key, v.value);
  }
}
