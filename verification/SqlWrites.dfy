/** Which of the verbs that write can still stand in a statement the gate lets through. */
module SqlWrites {
  import opened Outcome
  import opened Text
  import opened SqlLexer
  import opened SqlStatements
  import opened SqlGuard

  const REPLACE := "REPLACE"

  const WRITE_VERBS: seq<string> := ["INSERT", "UPDATE", "DELETE", "REPLACE", "CREATE", "DROP", "ALTER"]

  predicate Writes(words: seq<string>) {
    exists i :: 0 <= i < |WRITE_VERBS| && WRITE_VERBS[i] in words
  }

  lemma {:induction false} OtherVerbsForbidden(i: nat)
    requires i < |WRITE_VERBS| && WRITE_VERBS[i] != REPLACE
    ensures WRITE_VERBS[i] in FORBIDDEN_KEYWORDS
  {
    var f := FORBIDDEN_KEYWORDS;
    assert f[11] == WRITE_VERBS[0] && f[19] == WRITE_VERBS[1] && f[6] == WRITE_VERBS[2];
    assert f[5] == WRITE_VERBS[4] && f[8] == WRITE_VERBS[5] && f[0] == WRITE_VERBS[6];
  }

  lemma {:induction false} WritesByReplace(words: seq<string>)
    requires forall w :: w in FORBIDDEN_KEYWORDS ==> w !in words
    ensures Writes(words) <==> REPLACE in words
  {
    forall i | 0 <= i < |WRITE_VERBS| && WRITE_VERBS[i] in words ensures WRITE_VERBS[i] == REPLACE {
      if WRITE_VERBS[i] != REPLACE { OtherVerbsForbidden(i); }
    }
    assert WRITE_VERBS[3] == REPLACE;
  }

  /** What the gate lets through has a verb that writes among its bare words exactly when
      it has REPLACE, which is not forbidden because it is also a function. */
  lemma {:induction false} OnlyReplaceWrites(sql: string)
    requires Guard(sql, FORBIDDEN_KEYWORDS).Ok?
    ensures var text := Guard(sql, FORBIDDEN_KEYWORDS).value;
            && Lex(text, false).Ok?
            && var words := Words(Lex(text, false).value);
            Writes(words) <==> REPLACE in words
  {
    AcceptedWords(sql, FORBIDDEN_KEYWORDS);
    WritesByReplace(Words(Lex(Guard(sql, FORBIDDEN_KEYWORDS).value, false).value));
  }

  // ------------------------------------------------------------ the verdict on the caller's tokens

  predicate BeginsWord(ts: seq<Token>) {
    ts != [] && ts[0].Plain? && IdBody(ts[0].c)
  }

  lemma {:induction false} WordTextConcat(a: seq<Token>, b: seq<Token>)
    requires !BeginsWord(b)
    ensures WordText(a + b) == WordText(a)
    decreases |a|
  {
    if a == [] {
      assert a + b == b;
    } else {
      assert (a + b)[1..] == a[1..] + b;
      WordTextConcat(a[1..], b);
    }
  }

  /** No word runs across a place where none continues. */
  lemma {:induction false} WordsConcat(a: seq<Token>, b: seq<Token>)
    requires !BeginsWord(b)
    ensures Words(a + b) == Words(a) + Words(b)
    decreases |a|
  {
    if a == [] {
      assert a + b == b;
    } else if a[0].Plain? && IdStart(a[0].c) {
      var w := WordText(a);
      WordTextConcat(a, b);
      assert (a + b)[|w|..] == a[|w|..] + b;
      WordsConcat(a[|w|..], b);
    } else {
      assert (a + b)[1..] == a[1..] + b;
      WordsConcat(a[1..], b);
    }
  }

  function AllWords(pieces: seq<seq<Token>>): seq<string> {
    if pieces == [] then [] else Words(pieces[0]) + AllWords(pieces[1..])
  }

  /** The first piece ends at the first cut, and the others are those of what follows it. */
  ghost predicate CutsFirst(ts: seq<Token>, pieces: seq<seq<Token>>) {
    && pieces != [] && pieces[0] <= ts
    && (if |pieces[0]| == |ts| then pieces[1..] == []
        else ts[|pieces[0]|] == Plain(';') && pieces[1..] == Split(ts[|pieces[0]| + 1..]))
  }

  lemma {:induction false} CutsLater(t: Token, ts: seq<Token>, pieces: seq<seq<Token>>, after: seq<seq<Token>>)
    requires CutsFirst(ts, pieces) && after == [[t] + pieces[0]] + pieces[1..]
    ensures CutsFirst([t] + ts, after)
  {
    var n := |pieces[0]|;
    assert after[1..] == pieces[1..];
    assert ([t] + ts)[n + 1..] == ts[n..];
    if n < |ts| {
      assert ([t] + ts)[n + 2..] == ts[n + 1..];
    }
  }

  lemma {:induction false} FirstCut(ts: seq<Token>)
    ensures CutsFirst(ts, Split(ts))
    decreases |ts|
  {
    if ts == [] {
      assert Split(ts) == [[]];
    } else {
      var rest := ts[1..];
      var r := Split(rest);
      if ts[0] == Plain(';') {
        assert Split(ts) == [[]] + r && ([[]] + r)[1..] == r;
      } else {
        FirstCut(rest);
        CutsLater(ts[0], rest, r, Split(ts));
        assert [ts[0]] + rest == ts;
      }
    }
  }

  /** Cutting into pieces loses no word. */
  lemma {:induction false} SplitWords(ts: seq<Token>)
    ensures AllWords(Split(ts)) == Words(ts)
    decreases |ts|
  {
    var pieces := Split(ts);
    FirstCut(ts);
    var p := pieces[0];
    if |p| < |ts| {
      var rest := ts[|p| + 1..];
      SplitWords(rest);
      CutWords(p, rest, ts);
    } else {
      assert p == ts && AllWords(pieces[1..]) == [];
    }
  }

  lemma {:induction false} CutWords(p: seq<Token>, rest: seq<Token>, ts: seq<Token>)
    requires p <= ts && |p| < |ts| && ts[|p|] == Plain(';') && rest == ts[|p| + 1..]
    ensures Words(ts) == Words(p) + Words(rest)
  {
    var cut := [Plain(';')] + rest;
    assert ts == p + cut && cut[1..] == rest;
    WordsConcat(p, cut);
  }

  lemma {:induction false} DropLeftWords(ts: seq<Token>)
    ensures Words(DropLeft(ts)) == Words(ts)
    decreases |ts|
  {
    if ts != [] && Blank(ts[0]) { DropLeftWords(ts[1..]); }
  }

  lemma {:induction false} DropRightWords(ts: seq<Token>)
    ensures Words(DropRight(ts)) == Words(ts)
    decreases |ts|
  {
    if ts != [] && Blank(ts[|ts| - 1]) {
      var init, last := ts[..|ts| - 1], [ts[|ts| - 1]];
      DropRightWords(init);
      WordsConcat(init, last);
      assert ts == init + last && last[1..] == [];
    }
  }

  lemma {:induction false} TrimWords(ts: seq<Token>)
    ensures Words(TrimTokens(ts)) == Words(ts)
  {
    DropLeftWords(ts);
    DropRightWords(DropLeft(ts));
  }

  lemma {:induction false} AllWordsCons(p: seq<Token>, rest: seq<seq<Token>>)
    ensures AllWords([p] + rest) == Words(p) + AllWords(rest)
  {
    assert ([p] + rest)[1..] == rest;
  }

  lemma {:induction false} NonBlankCons(pieces: seq<seq<Token>>, t: seq<Token>, rest: seq<seq<Token>>)
    requires pieces != [] && t == TrimTokens(pieces[0]) && rest == NonBlank(pieces[1..])
    ensures NonBlank(pieces) == if t == [] then rest else [t] + rest
  {
  }

  /** Nor does trimming the pieces and leaving out the blank ones. */
  lemma {:induction false} NonBlankWords(pieces: seq<seq<Token>>)
    ensures AllWords(NonBlank(pieces)) == AllWords(pieces)
    decreases |pieces|
  {
    if pieces != [] {
      var t, rest := TrimTokens(pieces[0]), NonBlank(pieces[1..]);
      NonBlankWords(pieces[1..]);
      NonBlankCons(pieces, t, rest);
      TrimWords(pieces[0]);
      AllWordsCons(t, rest);
      assert t == [] ==> Words(t) == [];
    }
  }

  /** The words of the one statement are the words of the text. */
  lemma {:induction false} OneStatementWords(ts: seq<Token>)
    requires |NonBlank(Split(ts))| == 1
    ensures Words(NonBlank(Split(ts))[0]) == Words(ts)
  {
    SplitWords(ts);
    NonBlankWords(Split(ts));
    AllWordsOne(NonBlank(Split(ts)));
  }

  lemma {:induction false} AllWordsOne(pieces: seq<seq<Token>>)
    requires |pieces| == 1
    ensures AllWords(pieces) == Words(pieces[0])
  {
    assert AllWords(pieces[1..]) == [];
  }

  /** What a caller can look at before the call: the text is not blank, its quotes and comments
      close, it is one statement of an accepted kind, and its bare words have SELECT and
      no forbidden word. */
  predicate Passes(sql: string, banned: seq<string>) {
    && Trim(sql) != "" && Lex(sql, true).Ok?
    && var ts := Decomment(Lex(sql, true).value);
    && |NonBlank(Split(ts))| == 1
    && (Leading(NonBlank(Split(ts))[0]) == SELECT || Leading(NonBlank(Split(ts))[0]) == WITH)
    && SELECT in Words(ts)
    && forall w :: w in banned ==> w !in Words(ts)
  }

  lemma {:induction false} InspectIff(p: seq<Token>, banned: seq<string>)
    ensures Inspect(p, banned).Ok? <==>
              && (Leading(p) == SELECT || Leading(p) == WITH) && SELECT in Words(p)
              && forall w :: w in banned ==> w !in Words(p)
  {
    var first := FirstIn(banned, Words(p));
    assert first.Some? ==> first.value in banned && first.value in Words(p);
    if Leading(p) == SELECT { LeadingIsFirstWord(p); }
  }

  lemma {:induction false} TokensIff(ts: seq<Token>, banned: seq<string>)
    ensures GuardTokens(ts, banned).Ok? <==>
              && |NonBlank(Split(ts))| == 1
              && (Leading(NonBlank(Split(ts))[0]) == SELECT || Leading(NonBlank(Split(ts))[0]) == WITH)
              && SELECT in Words(ts)
              && forall w :: w in banned ==> w !in Words(ts)
  {
    var statements := NonBlank(Split(ts));
    if |statements| == 1 {
      InspectIff(statements[0], banned);
      OneStatementWords(ts);
      GuardOfOne(ts, banned);
    }
  }

  lemma {:induction false} GuardUnfolds(sql: string, banned: seq<string>)
    requires Trim(sql) != "" && Lex(sql, true).Ok?
    ensures Guard(sql, banned).Ok? <==> GuardTokens(Decomment(Lex(sql, true).value), banned).Ok?
  {
  }

  /** The gate accepts exactly the texts with that condition. */
  lemma {:induction false} GateIff(sql: string, banned: seq<string>)
    ensures Guard(sql, banned).Ok? <==> Passes(sql, banned)
  {
    if Trim(sql) != "" && Lex(sql, true).Ok? {
      GuardUnfolds(sql, banned);
      TokensIff(Decomment(Lex(sql, true).value), banned);
    }
  }

  lemma {:induction false} ReturnedTokens(sql: string, banned: seq<string>)
    requires Guard(sql, banned).Ok?
    ensures Lex(sql, true).Ok? && GuardTokens(Decomment(Lex(sql, true).value), banned).Ok?
    ensures Lex(Guard(sql, banned).value, false) == Ok(GuardTokens(Decomment(Lex(sql, true).value), banned).value)
  {
    GuardVerdict(sql, banned);
  }

  /** The words of what it returns are the words of the text it was given. */
  lemma {:induction false} ReturnedWords(sql: string, banned: seq<string>)
    requires Guard(sql, banned).Ok?
    ensures Lex(Guard(sql, banned).value, false).Ok?
    ensures Words(Lex(Guard(sql, banned).value, false).value) == Words(Decomment(Lex(sql, true).value))
  {
    ReturnedTokens(sql, banned);
    var ts := Decomment(Lex(sql, true).value);
    GuardedPiece(ts, banned);
    OneStatementWords(ts);
  }

  /** The gate returns a text that has REPLACE among its bare words exactly when the text it
      is given passes and has it. */
  lemma {:induction false} ReplaceIff(sql: string)
    ensures (&& Guard(sql, FORBIDDEN_KEYWORDS).Ok?
             && Lex(Guard(sql, FORBIDDEN_KEYWORDS).value, false).Ok?
             && REPLACE in Words(Lex(Guard(sql, FORBIDDEN_KEYWORDS).value, false).value))
            <==> Passes(sql, FORBIDDEN_KEYWORDS) && REPLACE in Words(Decomment(Lex(sql, true).value))
  {
    GateIff(sql, FORBIDDEN_KEYWORDS);
    if Guard(sql, FORBIDDEN_KEYWORDS).Ok? {
      ReturnedWords(sql, FORBIDDEN_KEYWORDS);
    }
  }

  /** A text that begins with REPLACE is refused. */
  lemma {:induction false} LeadingReplaceRefused(sql: string, banned: seq<string>)
    requires Lex(sql, true).Ok? && Leading(Decomment(Lex(sql, true).value)) == REPLACE
    ensures Guard(sql, banned).Err?
  {
    var ts := Decomment(Lex(sql, true).value);
    LeadingIsFirstWord(ts);
    assert Words(ts)[0] == REPLACE;
    if Guard(sql, banned).Ok? {
      AcceptedWords(sql, banned);
      ReturnedWords(sql, banned);
      assert false;
    }
  }

  // ------------------------------------------------------------ text without quotes, comments and cuts

  function Plains(s: string): seq<Token> {
    if s == "" then [] else [Plain(s[0])] + Plains(s[1..])
  }

  predicate Harmless(s: string) {
    forall i :: 0 <= i < |s| ==> !IsOpener(s[i]) && s[i] != '-' && s[i] != '/' && s[i] != ';'
  }

  lemma {:induction false} PlainsAt(s: string)
    ensures |Plains(s)| == |s|
    ensures forall i :: 0 <= i < |s| ==> Plains(s)[i] == Plain(s[i])
    decreases |s|
  {
    if s != "" { PlainsAt(s[1..]); }
  }

  lemma {:induction false} PlainsConcat(a: string, b: string)
    ensures Plains(a + b) == Plains(a) + Plains(b)
    decreases |a|
  {
    if a == "" {
      assert a + b == b;
    } else {
      PlainsConcat(a[1..], b);
      assert (a + b)[1..] == a[1..] + b;
    }
  }

  lemma {:induction false} RenderPlains(s: string)
    ensures Render(Plains(s)) == s
    decreases |s|
  {
    if s != "" { RenderPlains(s[1..]); }
  }

  lemma {:induction false} PlainsCanonical(s: string)
    requires Harmless(s)
    ensures Canonical(Plains(s), true) && Plain(';') !in Plains(s)
  {
    PlainsAt(s);
  }

  lemma {:induction false} OneStatement(ts: seq<Token>, banned: seq<string>)
    requires Plain(';') !in ts && ts != [] && TrimTokens(ts) == ts
    ensures GuardTokens(ts, banned) == Inspect(ts, banned)
  {
    SplitOfOne(ts);
    assert [ts][1..] == [];
    assert NonBlank([ts]) == [ts] + NonBlank([]);
  }

  lemma {:induction false} PlainTrimmed(s: string)
    requires s != "" && !IsSpace(s[0]) && !IsSpace(s[|s| - 1]) && Harmless(s)
    ensures Trim(s) == s && Plains(s) != [] && TrimTokens(Plains(s)) == Plains(s)
  {
    PlainsAt(s);
    PlainsCanonical(s);
    RenderPlains(s);
    TrimTokensIdempotent(Plains(s));
    TrimRender(Plains(s));
  }

  lemma {:induction false} PlainLex(s: string)
    requires Harmless(s)
    ensures Lex(s, true) == Ok(Plains(s)) && Lex(s, false) == Ok(Plains(s)) && Decomment(Plains(s)) == Plains(s)
  {
    var ts := Plains(s);
    PlainsCanonical(s);
    CanonicalWithoutComments(ts);
    RenderPlains(s);
    LexRender(ts, true);
    LexRender(ts, false);
    DecommentCanonical(ts);
  }

  lemma {:induction false} GuardOf(s: string, ts: seq<Token>, banned: seq<string>)
    requires Lex(s, true) == Ok(ts) && Decomment(ts) == ts && Trim(s) != "" && Render(ts) == s
    requires GuardTokens(ts, banned) == Inspect(ts, banned)
    ensures match Inspect(ts, banned)
            case Ok(_) => Guard(s, banned) == Ok(s)
            case Err(e) => Guard(s, banned) == Err(e)
  {
  }

  /** A text without quotes, comments and semicolons is judged as one stream of characters. */
  lemma {:induction false} PlainVerdict(s: string, banned: seq<string>)
    requires s != "" && !IsSpace(s[0]) && !IsSpace(s[|s| - 1]) && Harmless(s)
    ensures Lex(s, false) == Ok(Plains(s))
    ensures match Inspect(Plains(s), banned)
            case Ok(_) => Guard(s, banned) == Ok(s)
            case Err(e) => Guard(s, banned) == Err(e)
  {
    PlainLex(s);
    PlainTrimmed(s);
    PlainsCanonical(s);
    RenderPlains(s);
    OneStatement(Plains(s), banned);
    GuardOf(s, Plains(s), banned);
  }

  // ------------------------------------------------------------ its words

  predicate IsWord(w: string) {
    w != "" && IdStart(w[0]) && forall i :: 0 <= i < |w| ==> IdBody(w[i])
  }

  predicate IsGap(g: string) {
    (g != "" ==> !IdBody(g[0])) && forall i :: 0 <= i < |g| ==> !IdStart(g[i])
  }

  lemma {:induction false} WordTextCons(c: char, ts: seq<Token>, us: seq<Token>)
    requires us == [Plain(c)] + ts && IdBody(c)
    ensures WordText(us) == [c] + WordText(ts)
  {
    assert us[1..] == ts;
  }

  lemma {:induction false} WordTextOf(w: string, rest: seq<Token>)
    requires forall i :: 0 <= i < |w| ==> IdBody(w[i])
    requires !BeginsWord(rest)
    ensures WordText(Plains(w) + rest) == w
    decreases |w|
  {
    if w == "" {
      assert Plains(w) + rest == rest;
    } else {
      WordTextOf(w[1..], rest);
      WordTextCons(w[0], Plains(w[1..]) + rest, Plains(w) + rest);
    }
  }

  lemma {:induction false} SkipGap(g: string, rest: seq<Token>)
    requires forall i :: 0 <= i < |g| ==> !IdStart(g[i])
    ensures Words(Plains(g) + rest) == Words(rest)
    decreases |g|
  {
    if g == "" {
      assert Plains(g) + rest == rest;
    } else {
      var ts := Plains(g) + rest;
      assert ts[0] == Plain(g[0]) && ts[1..] == Plains(g[1..]) + rest;
      assert Words(ts) == Words(ts[1..]);
      SkipGap(g[1..], rest);
    }
  }

  /** One more word in front, in upper case. */
  lemma {:induction false} WordInFront(w: string, g: string, rest: string, text: string)
    requires text == w + (g + rest) && IsWord(w) && IsGap(g) && (rest != "" ==> g != "")
    ensures Words(Plains(text)) == [Upper(w)] + Words(Plains(rest))
  {
    PlainsConcat(w, g + rest);
    PlainsConcat(g, rest);
    PlainsAt(w);
    PlainsAt(g + rest);
    var ts := Plains(text);
    WordTextOf(w, Plains(g + rest));
    assert ts[0] == Plain(w[0]);
    assert ts[|w|..] == Plains(g + rest);
    SkipGap(g, Plains(rest));
  }

  // ------------------------------------------------------------ words and gaps

  /** A word and what separates it from the next one. */
  type Part = (string, string)

  /** Words and gaps alternate; only the last gap is empty, and no gap quotes, comments or cuts. */
  predicate Alternate(parts: seq<Part>) {
    forall i :: 0 <= i < |parts| ==>
      IsWord(parts[i].0) && IsGap(parts[i].1) && Harmless(parts[i].1) && (i == |parts| - 1 <==> parts[i].1 == "")
  }

  function Written(parts: seq<Part>): string {
    if parts == [] then "" else parts[0].0 + (parts[0].1 + Written(parts[1..]))
  }

  function WordsOf(parts: seq<Part>): seq<string> {
    if parts == [] then [] else [Upper(parts[0].0)] + WordsOf(parts[1..])
  }

  lemma {:induction false} WordsWritten(parts: seq<Part>)
    requires Alternate(parts)
    ensures Words(Plains(Written(parts))) == WordsOf(parts)
    decreases |parts|
  {
    if parts != [] {
      WordsWritten(parts[1..]);
      WordInFront(parts[0].0, parts[0].1, Written(parts[1..]), Written(parts));
    }
  }

  lemma {:induction false} WrittenPlain(parts: seq<Part>)
    requires Alternate(parts) && parts != []
    ensures var s := Written(parts);
            s != "" && !IsSpace(s[0]) && !IsSpace(s[|s| - 1]) && Harmless(s)
    decreases |parts|
  {
    var w, g := parts[0].0, parts[0].1;
    assert Harmless(w);
    if |parts| == 1 {
      assert Written(parts) == w;
    } else {
      WrittenPlain(parts[1..]);
      var rest := Written(parts[1..]);
      assert Written(parts)[|w| + |g|..] == rest;
    }
  }

  lemma {:induction false} LeadingWritten(parts: seq<Part>)
    requires Alternate(parts) && parts != []
    ensures Leading(Plains(Written(parts))) == Upper(parts[0].0)
  {
    var w, behind := parts[0].0, parts[0].1 + Written(parts[1..]);
    PlainsConcat(w, behind);
    PlainsAt(w);
    PlainsAt(behind);
    WordTextOf(w, Plains(behind));
    assert Plains(Written(parts))[0] == Plain(w[0]);
    assert DropWrapper(Plains(Written(parts))) == Plains(Written(parts));
  }

  /** Plain words and gaps that start with WITH are let through exactly when SELECT is among
      the words and no forbidden word is. */
  lemma {:induction false} WithVerdict(parts: seq<Part>, banned: seq<string>)
    requires Alternate(parts) && parts != [] && Upper(parts[0].0) == WITH
    ensures Lex(Written(parts), false) == Ok(Plains(Written(parts)))
    ensures Words(Plains(Written(parts))) == WordsOf(parts)
    ensures Guard(Written(parts), banned).Ok? <==>
              SELECT in WordsOf(parts) && forall w :: w in banned ==> w !in WordsOf(parts)
  {
    WordsWritten(parts);
    WrittenPlain(parts);
    LeadingWritten(parts);
    PlainVerdict(Written(parts), banned);
    var first := FirstIn(banned, WordsOf(parts));
    assert first.Some? ==> first.value in banned && first.value in WordsOf(parts);
  }

  // ------------------------------------------------------------ an input

  /** WITH x AS (SELECT 1) REPLACE INTO t SELECT * FROM x */
  const REPLACING: seq<Part> :=
    [("WITH", " "), ("x", " "), ("AS", " ("), ("SELECT", " 1) "), ("REPLACE", " "),
     ("INTO", " "), ("t", " "), ("SELECT", " * "), ("FROM", " "), ("x", "")]

  lemma {:induction false} NotForbidden(w: string)
    requires w in ["WITH", "X", "AS", "SELECT", "REPLACE", "INTO", "T", "FROM"]
    ensures w !in FORBIDDEN_KEYWORDS
  {
    forall i | 0 <= i < |FORBIDDEN_KEYWORDS| ensures FORBIDDEN_KEYWORDS[i] != w {
      var f := FORBIDDEN_KEYWORDS[i];
      assert |f| != |w| || f[0] != w[0] || f[2] != w[2];
    }
  }

  lemma {:induction false} WordsOfAt(parts: seq<Part>, i: nat)
    requires i < |parts|
    ensures |WordsOf(parts)| == |parts| && WordsOf(parts)[i] == Upper(parts[i].0)
    decreases |parts|
  {
    if |parts| == 1 {
      assert WordsOf(parts[1..]) == [];
    } else {
      WordsOfAt(parts[1..], if i == 0 then 0 else i - 1);
    }
  }

  lemma {:induction false} UpperSame(w: string)
    requires forall i :: 0 <= i < |w| ==> !('a' <= w[i] <= 'z')
    ensures Upper(w) == w
    decreases |w|
  {
    if w != "" { UpperSame(w[1..]); }
  }

  lemma {:induction false} ReplacingWord(i: nat)
    requires i < |REPLACING|
    ensures Upper(REPLACING[i].0) !in FORBIDDEN_KEYWORDS
    ensures i in {0, 3, 4} ==> Upper(REPLACING[i].0) == REPLACING[i].0
  {
    var w := REPLACING[i].0;
    if w == "x" || w == "t" {
      assert w[1..] == "";
      assert Upper(w) == [UpperChar(w[0])];
      assert Upper(w) == "X" || Upper(w) == "T";
    } else {
      UpperSame(w);
    }
    NotForbidden(Upper(w));
  }

  lemma {:induction false} ReplacingHead(i: nat)
    requires i < 5
    ensures var (w, g) := REPLACING[i]; IsWord(w) && IsGap(g) && Harmless(g) && g != ""
  {
  }

  lemma {:induction false} ReplacingTail(i: nat)
    requires 5 <= i < |REPLACING|
    ensures var (w, g) := REPLACING[i]; IsWord(w) && IsGap(g) && Harmless(g) && (i == |REPLACING| - 1 <==> g == "")
  {
  }

  lemma {:induction false} ReplacingAlternates()
    ensures Alternate(REPLACING)
  {
    forall i | 0 <= i < |REPLACING|
      ensures var (w, g) := REPLACING[i]; IsWord(w) && IsGap(g) && Harmless(g) && (i == |REPLACING| - 1 <==> g == "")
    {
      if i < 5 { ReplacingHead(i); } else { ReplacingTail(i); }
    }
  }

  lemma {:induction false} WordsAllowed(parts: seq<Part>, i: nat, j: nat, banned: seq<string>)
    requires i < |parts| && j < |parts| && forall k :: 0 <= k < |parts| ==> Upper(parts[k].0) !in banned
    ensures Upper(parts[i].0) in WordsOf(parts) && Upper(parts[j].0) in WordsOf(parts)
    ensures forall w :: w in banned ==> w !in WordsOf(parts)
  {
    var words := WordsOf(parts);
    forall k | 0 <= k < |parts| ensures |words| == |parts| && words[k] == Upper(parts[k].0) {
      WordsOfAt(parts, k);
    }
    assert words[i] in words && words[j] in words;
  }

  /** Plain words that start with WITH, have SELECT and REPLACE among them and no forbidden
      word are let through with the REPLACE. */
  lemma {:induction false} WithReplace(parts: seq<Part>, i: nat, j: nat, banned: seq<string>)
    requires Alternate(parts) && i < |parts| && j < |parts|
    requires Upper(parts[0].0) == WITH && Upper(parts[i].0) == SELECT && Upper(parts[j].0) == REPLACE
    requires forall k :: 0 <= k < |parts| ==> Upper(parts[k].0) !in banned
    ensures Guard(Written(parts), banned).Ok?
    ensures Lex(Written(parts), false).Ok? && REPLACE in Words(Lex(Written(parts), false).value)
  {
    WordsAllowed(parts, i, j, banned);
    WithVerdict(parts, banned);
  }

  /** One such statement. */
  lemma {:induction false} ReplaceExample()
    ensures Guard(Written(REPLACING), FORBIDDEN_KEYWORDS).Ok?
    ensures Lex(Written(REPLACING), false).Ok? && REPLACE in Words(Lex(Written(REPLACING), false).value)
  {
    ReplacingAlternates();
    forall k | 0 <= k < |REPLACING| ensures Upper(REPLACING[k].0) !in FORBIDDEN_KEYWORDS {
      ReplacingWord(k);
    }
    ReplacingWord(0);
    ReplacingWord(3);
    ReplacingWord(4);
    WithReplace(REPLACING, 3, 4, FORBIDDEN_KEYWORDS);
  }
}
