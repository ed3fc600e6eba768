/** The later scans of the SQL gate, expressed on tokens: cutting at semicolons,
    trimming, the leading word and the bare words. Each commutes with rendering,
    and none of them looks inside a quoted run. */
module SqlStatements {
  import opened Outcome
  import opened Text
  import opened SqlLexer

  // ---------------------------------------------------------------- rendering

  lemma {:induction false} Assoc<T>(a: seq<T>, b: seq<T>, c: seq<T>)
    ensures a + (b + c) == (a + b) + c
  {
  }

  lemma {:induction false} SliceSlice<T>(s: seq<T>, i: nat, m: nat)
    requires i + m <= |s|
    ensures s[i..][..m] == s[i..i + m]
  {
  }

  lemma {:induction false} RenderCons(t: Token, ts: seq<Token>, all: seq<Token>)
    requires all == [t] + ts
    ensures Render(all) == RenderToken(t) + Render(ts)
  {
    assert all[1..] == ts;
  }

  lemma {:induction false} RenderConcat(a: seq<Token>, b: seq<Token>)
    ensures Render(a + b) == Render(a) + Render(b)
    decreases |a|
  {
    if a == [] {
      assert a + b == b;
    } else {
      var t, rest := a[0], a[1..];
      RenderConcat(rest, b);
      RenderCons(t, rest, a);
      RenderCons(t, rest + b, a + b);
      Assoc(RenderToken(t), Render(rest), Render(b));
    }
  }

  lemma {:induction false} RenderSnoc(ts: seq<Token>, t: Token)
    ensures Render(ts + [t]) == Render(ts) + RenderToken(t)
  {
    RenderConcat(ts, [t]);
    assert [t][1..] == [] && RenderToken(t) + "" == RenderToken(t);
    assert Render([t]) == RenderToken(t) + Render([t][1..]);
  }

  /** Without comments to drop, reading loses nothing. */
  lemma {:induction false} LexRenders(s: string)
    requires Lex(s, false).Ok?
    ensures Canonical(Lex(s, false).value, false)
    ensures Render(Lex(s, false).value) == s
  {
    LexCanonical(s, false);
    LexPlainRenders(s);
    var ts := Lex(s, false).value;
    assert Decomment(ts) == ts;
  }

  lemma {:induction false} RenderRun(s: string, payload: string, text: string, rest: seq<Token>)
    requires s != "" && IsRun(s[1..], s[0], payload, text) && Render(rest) == text
    ensures Render([Quoted(s[0], payload)] + rest) == s
  {
    var ts := [Quoted(s[0], payload)] + rest;
    assert ts[1..] == rest;
    assert s == [s[0]] + s[1..];
  }

  lemma {:induction false} LexPlainRenders(s: string)
    requires Lex(s, false).Ok?
    ensures Comment !in Lex(s, false).value
    ensures Render(Lex(s, false).value) == s
    decreases |s|
  {
    if s != "" {
      if IsOpener(s[0]) {
        ReadRunSound(s[1..], s[0]);
        var (payload, rest) := ReadRun(s[1..], s[0]).value;
        LexPlainRenders(rest);
        RenderRun(s, payload, rest, Lex(rest, false).value);
      } else {
        var rest := Lex(s[1..], false).value;
        LexPlainRenders(s[1..]);
        assert ([Plain(s[0])] + rest)[1..] == rest;
      }
    }
  }

  /** The stripped text: scanned with or without comment recognition, it
      gives the tokens of the original with each comment become a space. */
  lemma {:induction false} StrippedRelex(s: string)
    requires Lex(s, true).Ok?
    ensures var out := Render(Lex(s, true).value);
            var ts := Decomment(Lex(s, true).value);
            Canonical(ts, true) && Render(ts) == out && Lex(out, true) == Ok(ts) && Lex(out, false) == Ok(ts)
  {
    var ts := Lex(s, true).value;
    LexCanonical(s, true);
    RenderDecomment(ts);
    LexRender(Decomment(ts), true);
    CanonicalWithoutComments(Decomment(ts));
    LexRender(Decomment(ts), false);
  }

  // ---------------------------------------------------------------- splitting

  function Split(ts: seq<Token>): (pieces: seq<seq<Token>>)
    ensures pieces != []
  {
    if ts == [] then [[]]
    else
      var r := Split(ts[1..]);
      if ts[0] == Plain(';') then [[]] + r else [[ts[0]] + r[0]] + r[1..]
  }

  function JoinTexts(parts: seq<string>): string {
    if parts == [] then "" else if |parts| == 1 then parts[0] else parts[0] + ";" + JoinTexts(parts[1..])
  }

  function RenderAll(pieces: seq<seq<Token>>): (r: seq<string>)
    ensures |r| == |pieces|
  {
    if pieces == [] then [] else [Render(pieces[0])] + RenderAll(pieces[1..])
  }

  lemma {:induction false} RenderAllAt(pieces: seq<seq<Token>>, i: nat)
    requires i < |pieces|
    ensures RenderAll(pieces)[i] == Render(pieces[i])
    decreases i
  {
    if i > 0 { RenderAllAt(pieces[1..], i - 1); }
  }

  lemma {:induction false} RenderAllSnoc(a: seq<seq<Token>>, x: seq<Token>)
    ensures RenderAll(a + [x]) == RenderAll(a) + [Render(x)]
    decreases |a|
  {
    if a == [] {
      assert [] + [x] == [x] && [x][1..] == [];
    } else {
      RenderAllSnoc(a[1..], x);
      assert (a + [x])[1..] == a[1..] + [x];
    }
  }

  lemma {:induction false} JoinPrepend(x: string, parts: seq<string>)
    requires parts != []
    ensures JoinTexts([x + parts[0]] + parts[1..]) == x + JoinTexts(parts)
  {
    assert ([x + parts[0]] + parts[1..])[1..] == parts[1..];
  }

  lemma {:induction false} JoinCut(parts: seq<string>)
    requires parts != []
    ensures JoinTexts([""] + parts) == ";" + JoinTexts(parts)
  {
    assert ([""] + parts)[1..] == parts;
  }

  lemma {:induction false} RenderPrepend(t: Token, r: seq<seq<Token>>)
    requires r != []
    ensures RenderAll([[t] + r[0]] + r[1..]) == [RenderToken(t) + RenderAll(r)[0]] + RenderAll(r)[1..]
  {
    var pieces := [[t] + r[0]] + r[1..];
    assert pieces[1..] == r[1..] && ([t] + r[0])[1..] == r[0];
  }

  lemma {:induction false} SplitRejoins(ts: seq<Token>)
    ensures JoinTexts(RenderAll(Split(ts))) == Render(ts)
    decreases |ts|
  {
    if ts != [] {
      var r := Split(ts[1..]);
      SplitRejoins(ts[1..]);
      if ts[0] == Plain(';') {
        assert ([[]] + r)[1..] == r;
        assert RenderAll([[]] + r) == [""] + RenderAll(r);
        JoinCut(RenderAll(r));
      } else {
        RenderPrepend(ts[0], r);
        JoinPrepend(RenderToken(ts[0]), RenderAll(r));
      }
    }
  }

  /** Every piece is a canonical stream of its own without a semicolon. */
  lemma {:induction false} SplitCanonical(ts: seq<Token>, comments: bool)
    requires Canonical(ts, comments)
    ensures Split(ts)[0] <= ts
    ensures forall i :: 0 <= i < |Split(ts)| ==>
              Canonical(Split(ts)[i], comments) && Plain(';') !in Split(ts)[i]
    decreases |ts|
  {
    if ts != [] {
      CanonicalSlice(ts, 1, |ts|, comments);
      assert ts[1..|ts|] == ts[1..];
      SplitCanonical(ts[1..], comments);
      var r := Split(ts[1..]);
      if ts[0] != Plain(';') {
        assert ts == [ts[0]] + ts[1..];
        if r[0] != [] {
          assert r[0][0] == ts[1];
          assert !Clash(ts[1 - 1], ts[1], comments);
        }
        CanonicalCons(ts[0], r[0], comments);
      }
    }
  }

  lemma {:induction false} SplitOfOne(ts: seq<Token>)
    requires Plain(';') !in ts
    ensures Split(ts) == [ts]
    decreases |ts|
  {
    if ts != [] {
      SplitOfOne(ts[1..]);
      assert ts == [ts[0]] + ts[1..];
    }
  }

  // ---------------------------------------------------------------- trimming

  predicate Blank(t: Token) {
    t.Plain? && IsSpace(t.c)
  }

  function DropLeft(ts: seq<Token>): (r: seq<Token>)
    ensures |r| <= |ts| && r == ts[|ts| - |r|..]
    ensures r != [] ==> !Blank(r[0])
  {
    if ts != [] && Blank(ts[0]) then DropLeft(ts[1..]) else ts
  }

  function DropRight(ts: seq<Token>): (r: seq<Token>)
    ensures |r| <= |ts| && r == ts[..|r|]
    ensures r != [] ==> !Blank(r[|r| - 1])
  {
    if ts != [] && Blank(ts[|ts| - 1]) then DropRight(ts[..|ts| - 1]) else ts
  }

  function TrimTokens(ts: seq<Token>): (r: seq<Token>)
    ensures r != [] ==> !Blank(r[0]) && !Blank(r[|r| - 1])
  {
    DropRight(DropLeft(ts))
  }

  lemma {:induction false} TrimSlice(ts: seq<Token>) returns (i: nat, j: nat)
    ensures i <= j <= |ts| && TrimTokens(ts) == ts[i..j]
  {
    var left := DropLeft(ts);
    i := |ts| - |left|;
    j := i + |DropRight(left)|;
    SliceSlice(ts, i, j - i);
  }

  lemma {:induction false} TrimCanonical(ts: seq<Token>, comments: bool)
    requires Canonical(ts, comments)
    ensures Canonical(TrimTokens(ts), comments)
    ensures Plain(';') !in ts ==> Plain(';') !in TrimTokens(ts)
  {
    var i, j := TrimSlice(ts);
    CanonicalSlice(ts, i, j, comments);
  }

  lemma {:induction false} TrimLeftRender(ts: seq<Token>)
    requires forall i :: 0 <= i < |ts| ==> WellFormed(ts[i])
    ensures TrimLeft(Render(ts)) == Render(DropLeft(ts))
    decreases |ts|
  {
    if ts != [] {
      assert WellFormed(ts[0]);
      if Blank(ts[0]) {
        TrimLeftRender(ts[1..]);
        assert Render(ts)[1..] == Render(ts[1..]);
      } else {
        RenderHead(ts);
      }
    }
  }

  lemma {:induction false} RenderLast(ts: seq<Token>)
    requires ts != []
    ensures Render(ts) == Render(ts[..|ts| - 1]) + RenderToken(ts[|ts| - 1])
  {
    assert ts == ts[..|ts| - 1] + [ts[|ts| - 1]];
    RenderSnoc(ts[..|ts| - 1], ts[|ts| - 1]);
  }

  lemma {:induction false} LastChar(s: string, before: string, t: Token)
    requires s == before + RenderToken(t) && WellFormed(t)
    ensures s != "" && s[|s| - 1] == if t.Quoted? then Closer(t.opener) else t.c
    ensures t.Plain? ==> s[..|s| - 1] == before
  {
  }

  lemma {:induction false} TrimRightRender(ts: seq<Token>)
    requires forall i :: 0 <= i < |ts| ==> WellFormed(ts[i])
    ensures TrimRight(Render(ts)) == Render(DropRight(ts))
    decreases |ts|
  {
    if ts != [] {
      var before, last := ts[..|ts| - 1], ts[|ts| - 1];
      RenderLast(ts);
      LastChar(Render(ts), Render(before), last);
      if Blank(last) {
        TrimRightRender(before);
      }
    }
  }

  /** Trimming a text trims its tokens: no quoted run starts or ends in white space. */
  lemma {:induction false} TrimRender(ts: seq<Token>)
    requires forall i :: 0 <= i < |ts| ==> WellFormed(ts[i])
    ensures Trim(Render(ts)) == Render(TrimTokens(ts))
    ensures Trim(Render(ts)) == "" <==> TrimTokens(ts) == []
  {
    TrimLeftRender(ts);
    var left := DropLeft(ts);
    assert forall i :: 0 <= i < |left| ==> left[i] == ts[|ts| - |left| + i];
    TrimRightRender(left);
    if TrimTokens(ts) != [] { RenderHead(TrimTokens(ts)); }
  }

  lemma {:induction false} TrimTokensIdempotent(ts: seq<Token>)
    requires ts != [] ==> !Blank(ts[0]) && !Blank(ts[|ts| - 1])
    ensures TrimTokens(ts) == ts
  {
  }

  // ---------------------------------------------------------------- words

  predicate IdStart(c: char) {
    'a' <= c <= 'z' || 'A' <= c <= 'Z' || c == '_'
  }

  predicate IdBody(c: char) {
    IdStart(c) || '0' <= c <= '9' || c == '$'
  }

  function UpperChar(c: char): char {
    if 'a' <= c <= 'z' then (c as int - 'a' as int + 'A' as int) as char else c
  }

  function Upper(s: string): string {
    if s == "" then "" else [UpperChar(s[0])] + Upper(s[1..])
  }

  /** Upper-casing turns each small letter into its capital and leaves every other character. */
  lemma {:induction false} UpperIs(w: string)
    ensures |Upper(w)| == |w|
    ensures forall i :: 0 <= i < |w| ==> !('a' <= Upper(w)[i] <= 'z')
    ensures forall i :: 0 <= i < |w| ==> if 'a' <= w[i] <= 'z' then Capital(w[i], Upper(w)[i]) else Upper(w)[i] == w[i]
    decreases |w|
  {
    if w != "" { UpperIs(w[1..]); }
  }

  /** The identifier characters with which the stream begins. */
  function WordText(ts: seq<Token>): (w: string)
    ensures |w| <= |ts|
  {
    if ts != [] && ts[0].Plain? && IdBody(ts[0].c) then [ts[0].c] + WordText(ts[1..]) else ""
  }

  /** The bare words, upper-cased, in order. */
  function Words(ts: seq<Token>): seq<string>
    decreases |ts|
  {
    if ts == [] then []
    else if ts[0].Plain? && IdStart(ts[0].c) then
      var w := WordText(ts);
      [Upper(w)] + Words(ts[|w|..])
    else Words(ts[1..])
  }

  predicate Wrapper(c: char) {
    c == '(' || c == ' ' || c == '\t' || c == '\r' || c == '\n'
  }

  function DropWrapper(ts: seq<Token>): seq<Token> {
    if ts != [] && ts[0].Plain? && Wrapper(ts[0].c) then DropWrapper(ts[1..]) else ts
  }

  const NON_SQL := "non-SQL"

  /** The statement kind. */
  function Leading(ts: seq<Token>): string {
    var w := WordText(DropWrapper(ts));
    if w == "" then NON_SQL else Upper(w)
  }

  /** A kind that is a word is also the first bare word. */
  lemma {:induction false} LeadingIsFirstWord(ts: seq<Token>)
    requires Leading(ts) != NON_SQL && IdStart(Leading(ts)[0])
    ensures Words(ts) != [] && Words(ts)[0] == Leading(ts)
    decreases |ts|
  {
    if ts[0].Plain? && Wrapper(ts[0].c) {
      LeadingIsFirstWord(ts[1..]);
    } else {
      var w := WordText(ts);
      assert Upper(w)[0] == UpperChar(w[0]);
      assert IdStart(ts[0].c);
    }
  }

  // ---------------------------------------------------------------- shape

  /** The capital of a small letter. */
  predicate Capital(small: char, c: char) {
    'a' <= small <= 'z' && c as int - 'A' as int == small as int - 'a' as int
  }

  predicate SameLetter(c: char, d: char) {
    c == d || Capital(c, d) || Capital(d, c)
  }

  /** The same except for what stands inside quoted runs and, when folded, for the case of letters. */
  predicate SameToken(a: Token, b: Token, fold: bool) {
    a == b || (a.Quoted? && b.Quoted?) || (fold && a.Plain? && b.Plain? && SameLetter(a.c, b.c))
  }

  predicate SameShape(a: seq<Token>, b: seq<Token>, fold: bool) {
    |a| == |b| && forall i :: 0 <= i < |a| ==> SameToken(a[i], b[i], fold)
  }

  predicate SameShapes(a: seq<seq<Token>>, b: seq<seq<Token>>, fold: bool) {
    |a| == |b| && forall i :: 0 <= i < |a| ==> SameShape(a[i], b[i], fold)
  }

  lemma {:induction false} ShapeTail(a: seq<Token>, b: seq<Token>, fold: bool)
    requires SameShape(a, b, fold) && a != []
    ensures SameToken(a[0], b[0], fold) && SameShape(a[1..], b[1..], fold)
  {
    forall i | 0 <= i < |a| - 1 ensures SameToken(a[1..][i], b[1..][i], fold) { assert SameToken(a[i + 1], b[i + 1], fold); }
  }

  lemma {:induction false} ShapeCons(x: Token, y: Token, a: seq<Token>, b: seq<Token>, fold: bool)
    requires SameToken(x, y, fold) && SameShape(a, b, fold)
    ensures SameShape([x] + a, [y] + b, fold)
  {
    forall i | 0 <= i < |a| + 1 ensures SameToken(([x] + a)[i], ([y] + b)[i], fold) {
      if i > 0 { assert SameToken(a[i - 1], b[i - 1], fold); }
    }
  }

  lemma {:induction false} ShapesCons(x: seq<Token>, y: seq<Token>, a: seq<seq<Token>>, b: seq<seq<Token>>, fold: bool)
    requires SameShape(x, y, fold) && SameShapes(a, b, fold)
    ensures SameShapes([x] + a, [y] + b, fold)
  {
    forall i | 0 <= i < |a| + 1 ensures SameShape(([x] + a)[i], ([y] + b)[i], fold) {
      if i > 0 { assert SameShape(a[i - 1], b[i - 1], fold); }
    }
  }

  lemma {:induction false} ShapesTail(a: seq<seq<Token>>, b: seq<seq<Token>>, fold: bool)
    requires SameShapes(a, b, fold) && a != []
    ensures SameShape(a[0], b[0], fold) && SameShapes(a[1..], b[1..], fold)
  {
    forall i | 0 <= i < |a| - 1 ensures SameShape(a[1..][i], b[1..][i], fold) { assert SameShape(a[i + 1], b[i + 1], fold); }
  }

  /** Both streams cut at their first token, or neither does. */
  lemma {:induction false} CutShape(x: Token, y: Token, fold: bool)
    requires SameToken(x, y, fold)
    ensures x == Plain(';') <==> y == Plain(';')
  {
    if x.Plain? { UpperSameLetter(x.c, y.c); }
  }

  lemma {:induction false} SplitShape(a: seq<Token>, b: seq<Token>, fold: bool)
    requires SameShape(a, b, fold)
    ensures SameShapes(Split(a), Split(b), fold)
    decreases |a|
  {
    if a != [] {
      ShapeTail(a, b, fold);
      CutShape(a[0], b[0], fold);
      SplitShape(a[1..], b[1..], fold);
      SplitStep(a[0], b[0], Split(a[1..]), Split(b[1..]), fold);
    }
  }

  lemma {:induction false} SplitStep(x: Token, y: Token, a: seq<seq<Token>>, b: seq<seq<Token>>, fold: bool)
    requires SameToken(x, y, fold) && SameShapes(a, b, fold) && a != []
    ensures SameShapes([[]] + a, [[]] + b, fold)
    ensures SameShapes([[x] + a[0]] + a[1..], [[y] + b[0]] + b[1..], fold)
  {
    ShapesTail(a, b, fold);
    ShapeCons(x, y, a[0], b[0], fold);
    ShapesCons([x] + a[0], [y] + b[0], a[1..], b[1..], fold);
    ShapesCons([], [], a, b, fold);
  }

  lemma {:induction false} DropLeftShape(a: seq<Token>, b: seq<Token>, fold: bool)
    requires SameShape(a, b, fold)
    ensures SameShape(DropLeft(a), DropLeft(b), fold)
    decreases |a|
  {
    if a != [] {
      assert SameToken(a[0], b[0], fold);
      if a[0].Plain? { UpperSameLetter(a[0].c, b[0].c); }
      if Blank(a[0]) { DropLeftShape(a[1..], b[1..], fold); }
    }
  }

  lemma {:induction false} DropRightShape(a: seq<Token>, b: seq<Token>, fold: bool)
    requires SameShape(a, b, fold)
    ensures SameShape(DropRight(a), DropRight(b), fold)
    decreases |a|
  {
    if a != [] {
      assert SameToken(a[|a| - 1], b[|b| - 1], fold);
      if a[|a| - 1].Plain? { UpperSameLetter(a[|a| - 1].c, b[|b| - 1].c); }
      if Blank(a[|a| - 1]) { DropRightShape(a[..|a| - 1], b[..|b| - 1], fold); }
    }
  }

  lemma {:induction false} TrimShape(a: seq<Token>, b: seq<Token>, fold: bool)
    requires SameShape(a, b, fold)
    ensures SameShape(TrimTokens(a), TrimTokens(b), fold)
  {
    DropLeftShape(a, b, fold);
    DropRightShape(DropLeft(a), DropLeft(b), fold);
  }

  lemma {:induction false} UpperSameLetter(c: char, d: char)
    requires SameLetter(c, d)
    ensures UpperChar(c) == UpperChar(d) && (IdBody(c) <==> IdBody(d)) && (IdStart(c) <==> IdStart(d))
    ensures (IsSpace(c) <==> IsSpace(d)) && (Wrapper(c) <==> Wrapper(d)) && (c == ';' <==> d == ';')
  {
  }

  lemma {:induction false} WordTextShape(a: seq<Token>, b: seq<Token>, fold: bool)
    requires SameShape(a, b, fold)
    ensures |WordText(a)| == |WordText(b)| && Upper(WordText(a)) == Upper(WordText(b))
    decreases |a|
  {
    if a != [] {
      assert SameToken(a[0], b[0], fold);
      if a[0].Plain? { UpperSameLetter(a[0].c, b[0].c); }
      WordTextShape(a[1..], b[1..], fold);
      if a[0].Plain? && IdBody(a[0].c) {
        assert ([a[0].c] + WordText(a[1..]))[1..] == WordText(a[1..]);
        assert ([b[0].c] + WordText(b[1..]))[1..] == WordText(b[1..]);
      }
    }
  }

  lemma {:induction false} WordsShape(a: seq<Token>, b: seq<Token>, fold: bool)
    requires SameShape(a, b, fold)
    ensures Words(a) == Words(b)
    decreases |a|
  {
    if a != [] {
      assert SameToken(a[0], b[0], fold);
      if a[0].Plain? { UpperSameLetter(a[0].c, b[0].c); }
      WordTextShape(a, b, fold);
      if a[0].Plain? && IdStart(a[0].c) {
        var n := |WordText(a)|;
        WordsShape(a[n..], b[n..], fold);
      } else {
        WordsShape(a[1..], b[1..], fold);
      }
    }
  }

  lemma {:induction false} LeadingShape(a: seq<Token>, b: seq<Token>, fold: bool)
    requires SameShape(a, b, fold)
    ensures Leading(a) == Leading(b)
    decreases |a|
  {
    if a != [] {
      assert SameToken(a[0], b[0], fold);
      if a[0].Plain? { UpperSameLetter(a[0].c, b[0].c); }
      if a[0].Plain? && Wrapper(a[0].c) { LeadingShape(a[1..], b[1..], fold); }
    }
    WordTextShape(a, b, fold);
  }

  // ---------------------------------------------------------------- toggling

  /** The simplest account of quoting: a two-state automaton that knows nothing
      of doubled quotes. A doubled quote leaves the run and enters it again. */
  datatype QuoteState = Outside | Inside(closer: char)

  function Toggle(st: QuoteState, c: char): QuoteState {
    match st
    case Outside => if IsOpener(c) then Inside(Closer(c)) else Outside
    case Inside(closer) => if c == closer then Outside else st
  }

  function Final(st: QuoteState, s: string): QuoteState
    decreases s
  {
    if s == "" then st else Final(Toggle(st, s[0]), s[1..])
  }

  /** Which characters are quoted, delimiters included. */
  function Mask(st: QuoteState, s: string): (m: seq<bool>)
    ensures |m| == |s|
    decreases s
  {
    if s == "" then [] else [st.Inside? || IsOpener(s[0])] + Mask(Toggle(st, s[0]), s[1..])
  }

  function Repeat(b: bool, n: nat): (m: seq<bool>)
    ensures |m| == n
  {
    if n == 0 then [] else [b] + Repeat(b, n - 1)
  }

  lemma {:induction false} RepeatAt(b: bool, n: nat, i: nat)
    requires i < n
    ensures Repeat(b, n)[i] == b
    decreases n
  {
    if i > 0 { RepeatAt(b, n - 1, i - 1); }
  }

  function TokenMask(ts: seq<Token>): seq<bool> {
    if ts == [] then [] else Repeat(ts[0].Quoted?, |RenderToken(ts[0])|) + TokenMask(ts[1..])
  }

  lemma {:induction false} RunFinal(s: string, q: char)
    requires IsOpener(q)
    ensures match ReadRun(s, q)
            case None => Final(Inside(Closer(q)), s).Inside?
            case Some((_, rest)) => Final(Inside(Closer(q)), s) == Final(Outside, rest)
    decreases |s|
  {
    if s != "" {
      if s[0] != Closer(q) {
        RunFinal(s[1..], q);
      } else if Doubles(q) && |s| > 1 && s[1] == Closer(q) {
        RunFinal(s[2..], q);
        FinalTwo(Inside(Closer(q)), s);
      }
    }
  }

  lemma {:induction false} FinalTwo(st: QuoteState, s: string)
    requires |s| > 1
    ensures Final(st, s) == Final(Toggle(Toggle(st, s[0]), s[1]), s[2..])
    ensures Mask(st, s) == [st.Inside? || IsOpener(s[0])]
                           + ([Toggle(st, s[0]).Inside? || IsOpener(s[1])] + Mask(Toggle(Toggle(st, s[0]), s[1]), s[2..]))
  {
    assert s[1..][1..] == s[2..];
  }

  lemma {:induction false} RepeatMore(n: nat, m: seq<bool>)
    ensures [true] + (Repeat(true, n) + m) == Repeat(true, n + 1) + m
  {
    assert Repeat(true, n + 1) == [true] + Repeat(true, n);
  }

  lemma {:induction false} RunMask(s: string, q: char)
    requires IsOpener(q) && ReadRun(s, q).Some?
    ensures var rest := ReadRun(s, q).value.1;
            Mask(Inside(Closer(q)), s) == Repeat(true, |s| - |rest|) + Mask(Outside, rest)
    decreases |s|
  {
    var st, rest := Inside(Closer(q)), ReadRun(s, q).value.1;
    var tail := Mask(Outside, rest);
    if s[0] != Closer(q) {
      RunMask(s[1..], q);
      RepeatMore(|s| - 1 - |rest|, tail);
    } else if Doubles(q) && |s| > 1 && s[1] == Closer(q) {
      RunMask(s[2..], q);
      FinalTwo(st, s);
      RepeatMore(|s| - 2 - |rest|, tail);
      RepeatMore(|s| - 1 - |rest|, tail);
    } else {
      RepeatMore(0, tail);
      assert Repeat(true, 0) + tail == tail;
    }
  }

  lemma {:induction false} QuotedToggles(s: string, payload: string, rest: string)
    requires s != "" && IsOpener(s[0]) && ReadRun(s[1..], s[0]) == Some((payload, rest))
    ensures Final(Outside, s) == Final(Outside, rest)
    ensures Mask(Outside, s) == Repeat(true, |RenderToken(Quoted(s[0], payload))|) + Mask(Outside, rest)
  {
    var q, body := s[0], s[1..];
    RunFinal(body, q);
    RunMask(body, q);
    ReadRunSound(body, q);
    var n := |body| - |rest|;
    assert n == |Escape(q, payload)| + 1;
    Assoc([true], Repeat(true, n), Mask(Outside, rest));
    assert Repeat(true, n + 1) == [true] + Repeat(true, n);
  }

  /** The scan that skips quoted runs refuses a text exactly when the automaton
      ends inside a run, and otherwise calls the same characters quoted. */
  lemma {:induction false} LexToggles(s: string)
    ensures Lex(s, false).Ok? <==> Final(Outside, s).Outside?
    ensures Lex(s, false).Err? ==> Lex(s, false).error == UnterminatedQuote
    ensures Lex(s, false).Ok? ==> Mask(Outside, s) == TokenMask(Lex(s, false).value)
    decreases |s|
  {
    if s != "" {
      if IsOpener(s[0]) {
        match ReadRun(s[1..], s[0]) {
          case None => RunFinal(s[1..], s[0]);
          case Some((payload, rest)) =>
            QuotedToggles(s, payload, rest);
            LexToggles(rest);
            if Lex(rest, false).Ok? {
              assert Lex(s, false).value[1..] == Lex(rest, false).value;
            }
        }
      } else {
        LexToggles(s[1..]);
        if Lex(s[1..], false).Ok? {
          assert Lex(s, false).value[1..] == Lex(s[1..], false).value;
        }
      }
    }
  }

  /** Text in which nothing outside quotes separates statements or opens a comment. */
  predicate CleanAt(s: string, mask: seq<bool>, i: nat)
    requires |mask| == |s| && i < |s|
  {
    mask[i] || (s[i] != ';' && !StartsLineComment(s[i..]) && !StartsBlockComment(s[i..]))
  }

  lemma {:induction false} MaskLength(ts: seq<Token>)
    ensures |TokenMask(ts)| == |Render(ts)|
    decreases |ts|
  {
    if ts != [] { MaskLength(ts[1..]); }
  }

  lemma {:induction false} CanonicalIsClean(ts: seq<Token>, i: nat)
    requires Canonical(ts, true) && Plain(';') !in ts
    requires i < |Render(ts)| == |TokenMask(ts)|
    ensures CleanAt(Render(ts), TokenMask(ts), i)
    decreases |ts|
  {
    var rest := ts[1..];
    CanonicalSlice(ts, 1, |ts|, true);
    assert ts[1..|ts|] == rest;
    MaskLength(rest);
    var n := |RenderToken(ts[0])|;
    var s := Render(ts);
    assert WellFormed(ts[0]);
    if i >= n {
      CanonicalIsClean(rest, i - n);
      assert s[i..] == Render(rest)[i - n..];
    } else if ts[0].Quoted? {
      RepeatAt(true, n, i);
    } else {
      assert i == 0 && s[0] == ts[0].c;
      if rest != [] {
        RenderHead(rest);
        assert WellFormed(rest[0]) && !Clash(ts[0], rest[0], true) by {
          assert ts[1] == rest[0];
          assert !Clash(ts[1 - 1], ts[1], true);
        }
        assert s[1] == Head(rest[0]);
      }
    }
  }
}
