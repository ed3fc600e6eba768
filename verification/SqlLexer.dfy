/** What the four scans of the SQL gate have to agree on: the division of a
    text into quoted runs, comments and plain characters. A text is read into
    tokens by `Lex` and written back by `Render`; the two are inverse on
    canonical token sequences, which is why a text can be scanned again after
    it was stripped, cut and trimmed. */
module SqlLexer {
  import opened Outcome

  datatype Error =
    | UnterminatedQuote
    | UnterminatedComment
    | EmptyStatement
    | ManyStatements(count: nat)
    | NotReadOnly(kind: string)
    | ForbiddenWord(word: string)
    | WithWithoutSelect

  /** A quoted run is its opener and the text it stands for; escapes are undone. */
  datatype Token =
    | Quoted(opener: char, payload: string)
    | Comment
    | Plain(c: char)

  predicate IsOpener(c: char) {
    c == '\'' || c == '"' || c == '`' || c == '['
  }

  function Closer(opener: char): char {
    if opener == '[' then ']' else opener
  }

  predicate Doubles(opener: char) {
    opener != '['
  }

  /** The four pairs of quotes; all but the bracket escape by repetition. */
  const QUOTE_PAIRS: seq<(char, char)> := [('\'', '\''), ('"', '"'), ('`', '`'), ('[', ']')]

  lemma {:induction false} QuoteTable(c: char)
    ensures IsOpener(c) <==> exists i :: 0 <= i < 4 && QUOTE_PAIRS[i].0 == c
    ensures IsOpener(c) ==> (c, Closer(c)) in QUOTE_PAIRS && (Doubles(c) <==> Closer(c) == c)
  {
    var q := QUOTE_PAIRS;
    assert q[0] == ('\'', '\'') && q[1] == ('"', '"') && q[2] == ('`', '`') && q[3] == ('[', ']');
  }

  /** The body of a quoted run: every closer inside the payload is written twice. */
  function Escape(q: char, payload: string): string {
    if payload == "" then ""
    else if payload[0] == Closer(q) then [payload[0], payload[0]] + Escape(q, payload[1..])
    else [payload[0]] + Escape(q, payload[1..])
  }

  function RenderToken(t: Token): string {
    match t
    case Quoted(q, payload) => [q] + Escape(q, payload) + [Closer(q)]
    case Comment => " "
    case Plain(c) => [c]
  }

  function Render(ts: seq<Token>): string {
    if ts == [] then "" else RenderToken(ts[0]) + Render(ts[1..])
  }

  // ---------------------------------------------------------------- reading

  /** Puts `seen` in front of the payload of a run. */
  function Shift(seen: string, r: Option<(string, string)>): Option<(string, string)> {
    match r
    case None => None
    case Some((payload, rest)) => Some((seen + payload, rest))
  }

  /** Reads the body of a quoted run from `s`, the text behind the opener:
      the payload and what follows the closing quote. */
  function ReadRun(s: string, q: char): (r: Option<(string, string)>)
    ensures r.Some? ==> |r.value.1| < |s|
  {
    if s == "" then None
    else if s[0] != Closer(q) then Shift([s[0]], ReadRun(s[1..], q))
    else if Doubles(q) && |s| > 1 && s[1] == Closer(q) then Shift([s[0]], ReadRun(s[2..], q))
    else Some(("", s[1..]))
  }

  /** What follows the first newline of `s`; nothing when there is none. */
  function AfterLine(s: string): (rest: string)
    ensures |rest| <= |s|
  {
    if s == "" then "" else if s[0] == '\n' then s[1..] else AfterLine(s[1..])
  }

  /** What follows the first star-slash of `s`. */
  function AfterBlock(s: string): (rest: Option<string>)
    ensures rest.Some? ==> |rest.value| < |s|
  {
    if |s| < 2 then None else if s[0] == '*' && s[1] == '/' then Some(s[2..]) else AfterBlock(s[1..])
  }

  /** A line comment ends behind its first newline, or with the text. */
  lemma {:induction false} AfterLineFirst(s: string)
    ensures s[|s| - |AfterLine(s)|..] == AfterLine(s)
    ensures '\n' !in s ==> AfterLine(s) == ""
    ensures '\n' in s ==>
              var end := |s| - |AfterLine(s)|;
              0 < end && s[end - 1] == '\n' && '\n' !in s[..end - 1]
    decreases |s|
  {
    if s != "" && s[0] != '\n' {
      AfterLineFirst(s[1..]);
      assert s == [s[0]] + s[1..];
      var end := |s| - |AfterLine(s)|;
      if '\n' in s { assert s[..end - 1] == [s[0]] + s[1..][..end - 2]; }
    }
  }

  predicate ClosesBlock(s: string, i: int) {
    0 <= i && i + 1 < |s| && s[i] == '*' && s[i + 1] == '/'
  }

  /** A block comment ends behind the first star-slash; without one it does not end. */
  lemma {:induction false} AfterBlockFirst(s: string)
    ensures AfterBlock(s).None? ==> forall i :: !ClosesBlock(s, i)
    ensures AfterBlock(s).Some? ==>
              var end := |s| - |AfterBlock(s).value|;
              s[end..] == AfterBlock(s).value && ClosesBlock(s, end - 2) && forall i :: i < end - 2 ==> !ClosesBlock(s, i)
    decreases |s|
  {
    if |s| >= 2 && !ClosesBlock(s, 0) {
      AfterBlockFirst(s[1..]);
      forall i ensures ClosesBlock(s, i) <==> ClosesBlock(s[1..], i - 1) {}
    }
  }

  function Cons(t: Token, rest: Result<seq<Token>, Error>): Result<seq<Token>, Error> {
    match rest
    case Err(e) => Err(e)
    case Ok(ts) => Ok([t] + ts)
  }

  predicate StartsLineComment(s: string) {
    |s| >= 2 && s[0] == '-' && s[1] == '-'
  }

  predicate StartsBlockComment(s: string) {
    |s| >= 2 && s[0] == '/' && s[1] == '*'
  }

  /** The tokens of a text. `comments` is true for the comment stripper and
      false for the two scans that run behind it. */
  function Lex(s: string, comments: bool): Result<seq<Token>, Error>
    decreases |s|
  {
    if s == "" then Ok([])
    else if IsOpener(s[0]) then
      match ReadRun(s[1..], s[0])
      case None => Err(UnterminatedQuote)
      case Some((payload, rest)) => Cons(Quoted(s[0], payload), Lex(rest, comments))
    else if comments && StartsLineComment(s) then Cons(Comment, Lex(AfterLine(s[1..]), comments))
    else if comments && StartsBlockComment(s) then
      match AfterBlock(s[2..])
      case None => Err(UnterminatedComment)
      case Some(rest) => Cons(Comment, Lex(rest, comments))
    else Cons(Plain(s[0]), Lex(s[1..], comments))
  }

  // ------------------------------------------------- quoted runs round trip

  predicate StartsWith(s: string, c: char) {
    s != "" && s[0] == c
  }

  predicate RunFits(q: char, payload: string, rest: string) {
    if Doubles(q) then !StartsWith(rest, Closer(q)) else Closer(q) !in payload
  }

  /** `s` is the escaped payload, a closer and the rest, and the run could not be longer. */
  predicate IsRun(s: string, q: char, payload: string, rest: string) {
    s == Escape(q, payload) + [Closer(q)] + rest && RunFits(q, payload, rest)
  }

  /** A run that was read is the escaped payload, a closer and the rest, and it
      could not have been longer. */
  lemma {:induction false} ReadRunSound(s: string, q: char)
    ensures match ReadRun(s, q)
            case None => true
            case Some((payload, rest)) => IsRun(s, q, payload, rest)
    decreases |s|
  {
    if s == "" {
    } else if s[0] != Closer(q) {
      ReadRunSound(s[1..], q);
      if ReadRun(s[1..], q).Some? {
        var (payload, rest) := ReadRun(s[1..], q).value;
        RunPlain(s, q, payload, rest);
      }
    } else if Doubles(q) && |s| > 1 && s[1] == Closer(q) {
      ReadRunSound(s[2..], q);
      if ReadRun(s[2..], q).Some? {
        var (payload, rest) := ReadRun(s[2..], q).value;
        RunDoubled(s, q, payload, rest);
      }
    } else {
      assert s == [s[0]] + s[1..];
      assert Escape(q, "") + [Closer(q)] + s[1..] == [s[0]] + s[1..];
    }
  }

  lemma {:induction false} RunPlain(s: string, q: char, payload: string, rest: string)
    requires s != "" && s[0] != Closer(q) && IsRun(s[1..], q, payload, rest)
    ensures IsRun(s, q, [s[0]] + payload, rest)
  {
    assert ([s[0]] + payload)[1..] == payload;
    assert Escape(q, [s[0]] + payload) == [s[0]] + Escape(q, payload);
    assert s == [s[0]] + s[1..];
  }

  lemma {:induction false} RunDoubled(s: string, q: char, payload: string, rest: string)
    requires |s| > 1 && s[0] == s[1] == Closer(q) && Doubles(q) && IsRun(s[2..], q, payload, rest)
    ensures IsRun(s, q, [s[0]] + payload, rest)
  {
    assert ([s[0]] + payload)[1..] == payload;
    assert Escape(q, [s[0]] + payload) == [s[0], s[0]] + Escape(q, payload);
    assert s == [s[0], s[1]] + s[2..];
  }

  /** Conversely, every payload that fits in front of `rest` is read back. */
  lemma {:induction false} ReadRunComplete(q: char, payload: string, rest: string)
    requires RunFits(q, payload, rest)
    ensures ReadRun(Escape(q, payload) + [Closer(q)] + rest, q) == Some((payload, rest))
    decreases |payload|
  {
    var s := Escape(q, payload) + [Closer(q)] + rest;
    if payload == "" {
      assert s == [Closer(q)] + rest;
      assert s[1..] == rest;
    } else {
      ReadRunComplete(q, payload[1..], rest);
      var tail := Escape(q, payload[1..]) + [Closer(q)] + rest;
      assert payload == [payload[0]] + payload[1..];
      if payload[0] == Closer(q) {
        assert s == [payload[0], payload[0]] + tail;
        assert s[2..] == tail;
      } else {
        assert s == [payload[0]] + tail;
        assert s[1..] == tail;
      }
    }
  }

  // ------------------------------------------------- canonical token streams

  predicate WellFormed(t: Token) {
    match t
    case Quoted(q, payload) => IsOpener(q) && (Doubles(q) || Closer(q) !in payload)
    case Comment => false
    case Plain(c) => !IsOpener(c)
  }

  /** Two tokens that would be read differently when written next to each other. */
  predicate Clash(a: Token, b: Token, comments: bool) {
    || (a.Quoted? && b.Quoted? && Doubles(a.opener) && a.opener == b.opener)
    || (comments && a == Plain('-') && b == Plain('-'))
    || (comments && a == Plain('/') && b == Plain('*'))
  }

  predicate Canonical(ts: seq<Token>, comments: bool) {
    && (forall i :: 0 <= i < |ts| ==> WellFormed(ts[i]))
    && (forall i :: 0 < i < |ts| ==> !Clash(ts[i - 1], ts[i], comments))
  }

  lemma {:induction false} CanonicalSlice(ts: seq<Token>, i: nat, j: nat, comments: bool)
    requires i <= j <= |ts| && Canonical(ts, comments)
    ensures Canonical(ts[i..j], comments)
  {
  }

  lemma {:induction false} CanonicalWithoutComments(ts: seq<Token>)
    requires Canonical(ts, true)
    ensures Canonical(ts, false)
  {
    forall i | 0 < i < |ts| ensures !Clash(ts[i - 1], ts[i], false) {
      assert !Clash(ts[i - 1], ts[i], true);
    }
  }

  /** The character with which a well-formed token starts. */
  function Head(t: Token): char {
    match t
    case Quoted(q, _) => q
    case Comment => ' '
    case Plain(c) => c
  }

  lemma {:induction false} RenderHead(ts: seq<Token>)
    requires ts != []
    ensures Render(ts) != "" && Render(ts)[0] == Head(ts[0])
  {
  }

  lemma {:induction false} LexRun(s: string, q: char, payload: string, text: string, comments: bool)
    requires s != "" && s[0] == q && IsOpener(q) && ReadRun(s[1..], q) == Some((payload, text))
    ensures Lex(s, comments) == Cons(Quoted(q, payload), Lex(text, comments))
  {
  }

  lemma {:induction false} RelexQuoted(q: char, payload: string, text: string, rest: seq<Token>, comments: bool)
    requires WellFormed(Quoted(q, payload)) && Lex(text, comments) == Ok(rest)
    requires Doubles(q) ==> !StartsWith(text, q)
    ensures Lex(RenderToken(Quoted(q, payload)) + text, comments) == Ok([Quoted(q, payload)] + rest)
  {
    ReadRunComplete(q, payload, text);
    BehindOpener(q, Escape(q, payload), Closer(q), text);
    LexRun(RenderToken(Quoted(q, payload)) + text, q, payload, text, comments);
  }

  lemma {:induction false} BehindOpener(q: char, body: string, close: char, text: string)
    ensures var s := [q] + body + [close] + text;
            s[0] == q && s[1..] == body + [close] + text
  {
    assert [q] + body + [close] + text == [q] + (body + [close] + text);
  }

  lemma {:induction false} RelexPlain(c: char, text: string, rest: seq<Token>, comments: bool)
    requires !IsOpener(c) && Lex(text, comments) == Ok(rest)
    requires comments && c == '-' ==> !StartsWith(text, '-')
    requires comments && c == '/' ==> !StartsWith(text, '*')
    ensures Lex([c] + text, comments) == Ok([Plain(c)] + rest)
  {
    var s := [c] + text;
    assert s[1..] == text;
  }

  /** Rescanning what was rendered gives the same tokens. */
  lemma {:induction false} LexRender(ts: seq<Token>, comments: bool)
    requires Canonical(ts, comments)
    ensures Lex(Render(ts), comments) == Ok(ts)
    decreases |ts|
  {
    if ts != [] {
      var rest := ts[1..];
      CanonicalSlice(ts, 1, |ts|, comments);
      assert ts[1..|ts|] == rest;
      LexRender(rest, comments);
      assert ts == [ts[0]] + rest;
      assert WellFormed(ts[0]);
      if rest != [] {
        RenderHead(rest);
        assert WellFormed(rest[0]) && !Clash(ts[0], rest[0], comments) by {
          assert ts[1] == rest[0];
          assert !Clash(ts[1 - 1], ts[1], comments);
        }
      }
      match ts[0] {
        case Quoted(q, payload) => RelexQuoted(q, payload, Render(rest), rest, comments);
        case Plain(c) => RelexPlain(c, Render(rest), rest, comments);
      }
    }
  }

  function Decomment(ts: seq<Token>): (r: seq<Token>)
    ensures |r| == |ts|
    ensures forall i :: 0 <= i < |ts| ==> r[i] == if ts[i].Comment? then Plain(' ') else ts[i]
  {
    if ts == [] then []
    else [if ts[0].Comment? then Plain(' ') else ts[0]] + Decomment(ts[1..])
  }

  lemma {:induction false} RenderDecomment(ts: seq<Token>)
    ensures Render(Decomment(ts)) == Render(ts)
    decreases |ts|
  {
    if ts != [] {
      RenderDecomment(ts[1..]);
      assert Decomment(ts)[1..] == Decomment(ts[1..]);
    }
  }

  /** The first token of a text begins where the text begins. */
  lemma {:induction false} LexHead(s: string, comments: bool)
    requires Lex(s, comments).Ok? && Lex(s, comments).value != []
    ensures s != ""
    ensures match Lex(s, comments).value[0]
            case Quoted(q, _) => q == s[0]
            case Comment => true
            case Plain(c) => c == s[0]
  {
  }

  lemma {:induction false} CanonicalCons(t: Token, ts: seq<Token>, comments: bool)
    requires WellFormed(t) && Canonical(ts, comments)
    requires ts != [] ==> !Clash(t, ts[0], comments)
    ensures Canonical([t] + ts, comments)
  {
  }

  /** Whatever was read, with every comment turned into a space, is canonical. */
  lemma {:induction false} LexCanonical(s: string, comments: bool)
    requires Lex(s, comments).Ok?
    ensures Canonical(Decomment(Lex(s, comments).value), comments)
    decreases |s|, 0
  {
    if s != "" {
      var ts := Lex(s, comments).value;
      if IsOpener(s[0]) {
        var (payload, rest) := ReadRun(s[1..], s[0]).value;
        ReadRunSound(s[1..], s[0]);
        LexTail(ts[0], rest, ts, comments);
      } else if comments && StartsLineComment(s) {
        LexTail(Comment, AfterLine(s[1..]), ts, comments);
      } else if comments && StartsBlockComment(s) {
        LexTail(Comment, AfterBlock(s[2..]).value, ts, comments);
      } else {
        LexTail(Plain(s[0]), s[1..], ts, comments);
      }
    }
  }

  /** The step of `LexCanonical`: a token in front of an already read rest. */
  lemma {:induction false} LexTail(t: Token, rest: string, ts: seq<Token>, comments: bool)
    requires Lex(rest, comments).Ok? && ts == [t] + Lex(rest, comments).value
    requires t.Comment? || WellFormed(t)
    requires t.Quoted? ==> RunFits(t.opener, t.payload, rest)
    requires comments && t == Plain('-') ==> !StartsWith(rest, '-')
    requires comments && t == Plain('/') ==> !StartsWith(rest, '*')
    ensures Canonical(Decomment(ts), comments)
    decreases |rest|, 1
  {
    var tail := Lex(rest, comments).value;
    LexCanonical(rest, comments);
    if tail != [] { LexHead(rest, comments); }
    var head := if t.Comment? then Plain(' ') else t;
    assert Decomment(ts) == [head] + Decomment(tail);
    CanonicalCons(head, Decomment(tail), comments);
  }
}
