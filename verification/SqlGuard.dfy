/** The read-only gate: the scanning loops, each proved against the token view,
    their composition, and what the composition guarantees. */
module SqlGuard {
  import opened Outcome
  import opened Text
  import opened SqlLexer
  import opened SqlStatements

  const SELECT := "SELECT"
  const WITH := "WITH"

  /** In alphabetical order, so that the first hit is the one that is reported. */
  const FORBIDDEN_KEYWORDS: seq<string> :=
    ["ALTER", "ANALYZE", "ATTACH", "BEGIN", "COMMIT", "CREATE", "DELETE", "DETACH", "DROP", "EXPLAIN",
     "GRANT", "INSERT", "PRAGMA", "REINDEX", "RELEASE", "REVOKE", "ROLLBACK", "SAVEPOINT", "TRUNCATE",
     "UPDATE", "VACUUM"]

  // ------------------------------------------------------------ specification

  function FirstIn(list: seq<string>, words: seq<string>): (r: Option<string>)
    ensures r.None? ==> forall w :: w in list ==> w !in words
    ensures r.Some? ==> r.value in list && r.value in words
  {
    if list == [] then None else if list[0] in words then Some(list[0]) else FirstIn(list[1..], words)
  }

  /** The checks on a single statement. */
  function Inspect(statement: seq<Token>, banned: seq<string>): Result<seq<Token>, Error> {
    var kind := Leading(statement);
    var words := Words(statement);
    if kind != SELECT && kind != WITH then Err(NotReadOnly(kind))
    else if FirstIn(banned, words).Some? then
      Err(ForbiddenWord(FirstIn(banned, words).value))
    else if kind == WITH && SELECT !in words then Err(WithWithoutSelect)
    else Ok(statement)
  }

  function NonBlank(pieces: seq<seq<Token>>): seq<seq<Token>> {
    if pieces == [] then []
    else
      var t := TrimTokens(pieces[0]);
      (if t == [] then [] else [t]) + NonBlank(pieces[1..])
  }

  /** The gate on the tokens of a text whose comments became spaces. */
  function GuardTokens(ts: seq<Token>, banned: seq<string>): Result<seq<Token>, Error> {
    Judge(NonBlank(Split(ts)), banned)
  }

  function Judge(statements: seq<seq<Token>>, banned: seq<string>): Result<seq<Token>, Error> {
    if statements == [] then Err(EmptyStatement)
    else if |statements| > 1 then Err(ManyStatements(|statements|))
    else Inspect(statements[0], banned)
  }

  /** The whole gate, for any list of forbidden words: one reading of the caller's text decides everything. */
  function Guard(sql: string, banned: seq<string>): Result<string, Error> {
    if Trim(sql) == "" then Err(EmptyStatement)
    else
      match Lex(sql, true)
      case Err(e) => Err(e)
      case Ok(ts) =>
        match GuardTokens(Decomment(ts), banned)
        case Err(e) => Err(e)
        case Ok(statement) => Ok(Render(statement))
  }

  // ------------------------------------------------------------ the four scans

  function Prepend(ts: seq<Token>, r: Result<seq<Token>, Error>): Result<seq<Token>, Error> {
    match r
    case Err(e) => Err(e)
    case Ok(us) => Ok(ts + us)
  }

  lemma {:induction false} PrependCons(ts: seq<Token>, t: Token, r: Result<seq<Token>, Error>)
    ensures Prepend(ts, Cons(t, r)) == Prepend(ts + [t], r)
    ensures Prepend([], r) == r
  {
    if r.Ok? {
      assert ts + ([t] + r.value) == ts + [t] + r.value;
      assert [] + r.value == r.value;
    }
  }

  lemma {:induction false} ShiftChar(seen: string, c: char, r: Option<(string, string)>)
    ensures Shift(seen, Shift([c], r)) == Shift(seen + [c], r)
    ensures Shift("", r) == r
  {
    if r.Some? {
      assert seen + ([c] + r.value.0) == seen + [c] + r.value.0;
      assert "" + r.value.0 == r.value.0;
    }
  }

  /** The index just past the quoted run that starts at `index`. */
  method SkipQuoted(sql: string, index: nat) returns (r: Result<nat, Error>)
    requires index < |sql| && IsOpener(sql[index])
    ensures Skips(sql, index, r)
  {
    var opener := sql[index];
    var closer := Closer(opener);
    var doubles := Doubles(opener);
    var cursor := index + 1;
    ghost var seen := "";
    ShiftChar("", opener, ReadRun(sql[index + 1..], opener));
    while cursor < |sql|
      invariant index < cursor <= |sql|
      invariant Scanned(sql, index, cursor, seen)
    {
      if sql[cursor] != closer {
        ScanPlain(sql, index, cursor, seen);
        seen := seen + [sql[cursor]];
        cursor := cursor + 1;
        continue;
      }
      if doubles && cursor + 1 < |sql| && sql[cursor + 1] == closer {
        ScanDoubled(sql, index, cursor, seen);
        seen := seen + [sql[cursor]];
        cursor := cursor + 2;
        continue;
      }
      ScanClosed(sql, index, cursor, seen);
      return Ok(cursor + 1);
    }
    ScanEnded(sql, index, cursor, seen);
    r := Err(UnterminatedQuote);
  }

  /** The index lies just past the run that starts at `index`, or the run does not end. */
  ghost predicate Skips(sql: string, index: nat, r: Result<nat, Error>)
    requires index < |sql|
  {
    match ReadRun(sql[index + 1..], sql[index])
    case None => r == Err(UnterminatedQuote)
    case Some((payload, rest)) =>
      && r.Ok? && index < r.value <= |sql| && sql[r.value..] == rest
      && sql[index..r.value] == RenderToken(Quoted(sql[index], payload))
  }

  lemma {:induction false} ScanEnded(sql: string, index: nat, cursor: nat, seen: string)
    requires index < cursor == |sql| && Scanned(sql, index, cursor, seen)
    ensures Skips(sql, index, Err(UnterminatedQuote))
  {
    assert sql[cursor..] == "";
  }

  /** Behind the opener at `index`, `seen` has been read up to `cursor`. */
  ghost predicate Scanned(sql: string, index: nat, cursor: nat, seen: string)
    requires index < cursor <= |sql|
  {
    ReadRun(sql[index + 1..], sql[index]) == Shift(seen, ReadRun(sql[cursor..], sql[index]))
  }

  lemma {:induction false} ScanPlain(sql: string, index: nat, cursor: nat, seen: string)
    requires index < cursor < |sql| && Scanned(sql, index, cursor, seen) && sql[cursor] != Closer(sql[index])
    ensures Scanned(sql, index, cursor + 1, seen + [sql[cursor]])
  {
    assert sql[cursor..][1..] == sql[cursor + 1..];
    ShiftChar(seen, sql[cursor], ReadRun(sql[cursor + 1..], sql[index]));
  }

  lemma {:induction false} ScanDoubled(sql: string, index: nat, cursor: nat, seen: string)
    requires index < cursor && cursor + 1 < |sql| && Scanned(sql, index, cursor, seen)
    requires Doubles(sql[index]) && sql[cursor] == sql[cursor + 1] == Closer(sql[index])
    ensures Scanned(sql, index, cursor + 2, seen + [sql[cursor]])
  {
    assert sql[cursor..][2..] == sql[cursor + 2..];
    ShiftChar(seen, sql[cursor], ReadRun(sql[cursor + 2..], sql[index]));
  }

  lemma {:induction false} ReadClosed(s: string, q: char)
    requires s != "" && s[0] == Closer(q) && (Doubles(q) && |s| > 1 ==> s[1] != Closer(q))
    ensures ReadRun(s, q) == Some(("", s[1..]))
  {
  }

  lemma {:induction false} ScanClosed(sql: string, index: nat, cursor: nat, seen: string)
    requires index < cursor < |sql| && Scanned(sql, index, cursor, seen) && sql[cursor] == Closer(sql[index])
    requires Doubles(sql[index]) && cursor + 1 < |sql| ==> sql[cursor + 1] != Closer(sql[index])
    ensures Skips(sql, index, Ok(cursor + 1))
  {
    ReadClosed(sql[cursor..], sql[index]);
    assert sql[cursor..][1..] == sql[cursor + 1..];
    assert seen + "" == seen;
    RunText(sql, index, seen, cursor + 1);
  }

  lemma {:induction false} RunText(sql: string, index: nat, payload: string, end: nat)
    requires index < end <= |sql|
    requires ReadRun(sql[index + 1..], sql[index]) == Some((payload, sql[end..]))
    ensures sql[index..end] == RenderToken(Quoted(sql[index], payload))
  {
    ReadRunSound(sql[index + 1..], sql[index]);
    RunInFront(sql[index], sql[index + 1..], payload, sql[end..]);
    SliceFront(sql, index, end, RenderToken(Quoted(sql[index], payload)));
  }

  lemma {:induction false} SliceFront(sql: string, index: nat, end: nat, run: string)
    requires index < end <= |sql| && [sql[index]] + sql[index + 1..] == run + sql[end..]
    ensures sql[index..end] == run
  {
    var whole := [sql[index]] + sql[index + 1..];
    assert sql[index..] == whole && |run| == end - index;
    assert sql[index..end] == whole[..|run|];
  }

  lemma {:induction false} RunInFront(q: char, body: string, payload: string, rest: string)
    requires IsRun(body, q, payload, rest)
    ensures [q] + body == RenderToken(Quoted(q, payload)) + rest
  {
  }

  // One step of reading, by the form of the next token.

  lemma {:induction false} LexQuotedAt(sql: string, index: nat, next: nat, payload: string, comments: bool)
    requires index < next <= |sql| && IsOpener(sql[index])
    requires ReadRun(sql[index + 1..], sql[index]) == Some((payload, sql[next..]))
    ensures Lex(sql[index..], comments) == Cons(Quoted(sql[index], payload), Lex(sql[next..], comments))
  {
    assert sql[index..][1..] == sql[index + 1..];
  }

  lemma {:induction false} LexUnclosedAt(sql: string, index: nat, comments: bool)
    requires index < |sql| && IsOpener(sql[index]) && ReadRun(sql[index + 1..], sql[index]) == None
    ensures Lex(sql[index..], comments) == Err(UnterminatedQuote)
  {
    assert sql[index..][1..] == sql[index + 1..];
  }

  lemma {:induction false} LexPlainAt(sql: string, index: nat, comments: bool)
    requires index < |sql| && !IsOpener(sql[index])
    requires comments ==> !StartsLineComment(sql[index..]) && !StartsBlockComment(sql[index..])
    ensures Lex(sql[index..], comments) == Cons(Plain(sql[index]), Lex(sql[index + 1..], comments))
  {
    assert sql[index..][1..] == sql[index + 1..];
  }

  /** The text up to `index` has been read into `done`. */
  ghost predicate Read(sql: string, comments: bool, done: seq<Token>, index: nat) {
    index <= |sql| && Lex(sql, comments) == Prepend(done, Lex(sql[index..], comments))
  }

  lemma {:induction false} ReadStart(sql: string, comments: bool)
    ensures Read(sql, comments, [], 0)
  {
    assert sql[0..] == sql;
    PrependCons([], Comment, Lex(sql, comments));
  }

  lemma {:induction false} ReadMore(sql: string, comments: bool, done: seq<Token>, index: nat, t: Token, next: nat)
    requires Read(sql, comments, done, index) && next <= |sql|
    requires Lex(sql[index..], comments) == Cons(t, Lex(sql[next..], comments))
    ensures Read(sql, comments, done + [t], next)
  {
    PrependCons(done, t, Lex(sql[next..], comments));
  }

  lemma {:induction false} ReadQuoted(sql: string, comments: bool, done: seq<Token>, index: nat, payload: string, next: nat)
    requires Read(sql, comments, done, index) && index < next <= |sql| && IsOpener(sql[index])
    requires ReadRun(sql[index + 1..], sql[index]) == Some((payload, sql[next..]))
    ensures Read(sql, comments, done + [Quoted(sql[index], payload)], next)
  {
    LexQuotedAt(sql, index, next, payload, comments);
    ReadMore(sql, comments, done, index, Quoted(sql[index], payload), next);
  }

  lemma {:induction false} ReadPlain(sql: string, comments: bool, done: seq<Token>, index: nat)
    requires Read(sql, comments, done, index) && index < |sql| && !IsOpener(sql[index])
    requires comments ==> !StartsLineComment(sql[index..]) && !StartsBlockComment(sql[index..])
    ensures Read(sql, comments, done + [Plain(sql[index])], index + 1)
  {
    LexPlainAt(sql, index, comments);
    ReadMore(sql, comments, done, index, Plain(sql[index]), index + 1);
  }

  lemma {:induction false} ReadLine(sql: string, done: seq<Token>, index: nat)
    requires Read(sql, true, done, index) && index < |sql| && StartsLineComment(sql[index..])
    ensures var next := |sql| - |AfterLine(sql[index + 1..])|;
            index < next && Read(sql, true, done + [Comment], next)
  {
    assert sql[index..][1..] == sql[index + 1..];
    AfterLineFirst(sql[index + 1..]);
    var next := |sql| - |AfterLine(sql[index + 1..])|;
    assert sql[next..] == AfterLine(sql[index + 1..]);
    ReadMore(sql, true, done, index, Comment, next);
  }

  lemma {:induction false} ReadBlock(sql: string, done: seq<Token>, index: nat)
    requires Read(sql, true, done, index) && index < |sql| && StartsBlockComment(sql[index..])
    ensures match AfterBlock(sql[index + 2..])
            case None => Lex(sql, true) == Err(UnterminatedComment)
            case Some(rest) => index < |sql| - |rest| && Read(sql, true, done + [Comment], |sql| - |rest|)
  {
    assert sql[index..][2..] == sql[index + 2..];
    AfterBlockFirst(sql[index + 2..]);
    if AfterBlock(sql[index + 2..]).Some? {
      var rest := AfterBlock(sql[index + 2..]).value;
      assert sql[|sql| - |rest|..] == rest;
      ReadMore(sql, true, done, index, Comment, |sql| - |rest|);
    }
  }

  lemma {:induction false} ReadUnclosed(sql: string, comments: bool, done: seq<Token>, index: nat)
    requires Read(sql, comments, done, index) && index < |sql| && IsOpener(sql[index])
    requires ReadRun(sql[index + 1..], sql[index]) == None
    ensures Lex(sql, comments) == Err(UnterminatedQuote)
  {
    LexUnclosedAt(sql, index, comments);
  }

  lemma {:induction false} ReadEnd(sql: string, comments: bool, done: seq<Token>)
    requires Read(sql, comments, done, |sql|)
    ensures Lex(sql, comments) == Ok(done)
  {
    assert sql[|sql|..] == "";
    assert done + [] == done;
  }

  /** The stripping loop at `index`. */
  ghost predicate Stripping(sql: string, done: seq<Token>, out: string, index: nat) {
    Read(sql, true, done, index) && out == Render(done)
  }

  lemma {:induction false} StrippingMore(sql: string, done: seq<Token>, out: string, index: nat, t: Token, next: nat)
    requires Stripping(sql, done, out, index) && Read(sql, true, done + [t], next)
    ensures Stripping(sql, done + [t], out + RenderToken(t), next)
  {
    RenderSnoc(done, t);
  }

  /** Replace every comment with a single space. */
  method StripSqlComments(sql: string) returns (r: Result<string, Error>)
    ensures match Lex(sql, true)
            case Err(e) => r == Err(e)
            case Ok(ts) => r == Ok(Render(ts))
  {
    var out := "";
    var index := 0;
    ghost var done: seq<Token> := [];
    ReadStart(sql, true);
    while index < |sql|
      invariant Stripping(sql, done, out, index)
    {
      var c := sql[index];
      if IsOpener(c) {
        var skipped := SkipQuoted(sql, index);
        if skipped.Err? {
          ReadUnclosed(sql, true, done, index);
          return Err(skipped.error);
        }
        ghost var payload := ReadRun(sql[index + 1..], c).value.0;
        StripQuoted(sql, done, out, index, payload, skipped.value);
        out, done := out + sql[index..skipped.value], done + [Quoted(c, payload)];
        index := skipped.value;
        continue;
      }
      if c == '-' && StartsLineComment(sql[index..]) {
        var next := |sql| - |AfterLine(sql[index + 1..])|;
        StripLine(sql, done, out, index, next);
        out, done, index := out + " ", done + [Comment], next;
        continue;
      }
      if c == '/' && StartsBlockComment(sql[index..]) {
        var close := AfterBlock(sql[index + 2..]);
        ReadBlock(sql, done, index);
        if close.None? {
          return Err(UnterminatedComment);
        }
        var next := |sql| - |close.value|;
        StripBlock(sql, done, out, index, next);
        out, done, index := out + " ", done + [Comment], next;
        continue;
      }
      StripPlain(sql, done, out, index);
      out, done, index := out + [c], done + [Plain(c)], index + 1;
    }
    ReadEnd(sql, true, done);
    r := Ok(out);
  }

  lemma {:induction false} StripQuoted(sql: string, done: seq<Token>, out: string, index: nat, payload: string, next: nat)
    requires Stripping(sql, done, out, index) && index < next <= |sql| && IsOpener(sql[index])
    requires ReadRun(sql[index + 1..], sql[index]) == Some((payload, sql[next..]))
    requires sql[index..next] == RenderToken(Quoted(sql[index], payload))
    ensures Stripping(sql, done + [Quoted(sql[index], payload)], out + sql[index..next], next)
  {
    ReadQuoted(sql, true, done, index, payload, next);
    StrippingMore(sql, done, out, index, Quoted(sql[index], payload), next);
  }

  lemma {:induction false} StripLine(sql: string, done: seq<Token>, out: string, index: nat, next: nat)
    requires Stripping(sql, done, out, index) && index < |sql| && StartsLineComment(sql[index..])
    requires next == |sql| - |AfterLine(sql[index + 1..])|
    ensures index < next && Stripping(sql, done + [Comment], out + " ", next)
  {
    ReadLine(sql, done, index);
    StrippingMore(sql, done, out, index, Comment, next);
  }

  lemma {:induction false} StripBlock(sql: string, done: seq<Token>, out: string, index: nat, next: nat)
    requires Stripping(sql, done, out, index) && index < |sql| && StartsBlockComment(sql[index..])
    requires AfterBlock(sql[index + 2..]).Some? && next == |sql| - |AfterBlock(sql[index + 2..]).value|
    ensures index < next && Stripping(sql, done + [Comment], out + " ", next)
  {
    ReadBlock(sql, done, index);
    StrippingMore(sql, done, out, index, Comment, next);
  }

  lemma {:induction false} StripPlain(sql: string, done: seq<Token>, out: string, index: nat)
    requires Stripping(sql, done, out, index) && index < |sql| && !IsOpener(sql[index])
    requires !StartsLineComment(sql[index..]) && !StartsBlockComment(sql[index..])
    ensures Stripping(sql, done + [Plain(sql[index])], out + [sql[index]], index + 1)
  {
    ReadPlain(sql, true, done, index);
    StrippingMore(sql, done, out, index, Plain(sql[index]), index + 1);
  }

  lemma {:induction false} SplitSnocCut(ts: seq<Token>)
    ensures Split(ts + [Plain(';')]) == Split(ts) + [[]]
    decreases |ts|
  {
    var full := ts + [Plain(';')];
    if ts == [] {
      assert full[1..] == [];
    } else {
      SplitSnocCut(ts[1..]);
      assert full[1..] == ts[1..] + [Plain(';')];
    }
  }

  /** The last piece gets one more token. */
  function Longer(pieces: seq<seq<Token>>, t: Token): seq<seq<Token>>
    requires pieces != []
  {
    pieces[..|pieces| - 1] + [pieces[|pieces| - 1] + [t]]
  }

  lemma {:induction false} LongerBehindCut(r: seq<seq<Token>>, t: Token)
    requires r != []
    ensures Longer([[]] + r, t) == [[]] + Longer(r, t)
  {
    var all := [[]] + r;
    assert all[..|all| - 1] == [[]] + r[..|r| - 1];
  }

  lemma {:induction false} LongerBehindToken(u: Token, r: seq<seq<Token>>, t: Token)
    requires r != []
    ensures Longer([[u] + r[0]] + r[1..], t) == [[u] + Longer(r, t)[0]] + Longer(r, t)[1..]
  {
    var all, longer := [[u] + r[0]] + r[1..], Longer(r, t);
    if |r| == 1 {
      assert [u] + (r[0] + [t]) == [u] + r[0] + [t];
    } else {
      var n := |r| - 1;
      assert all[..n] == [[u] + r[0]] + r[1..n];
      assert longer[0] == r[0] && longer[1..] == r[1..n] + [r[n] + [t]];
    }
  }

  lemma {:induction false} SplitSnocOpen(ts: seq<Token>, t: Token)
    requires t != Plain(';')
    ensures Split(ts + [t]) == Longer(Split(ts), t)
    decreases |ts|
  {
    var full := ts + [t];
    if ts == [] {
      assert full[1..] == [] && [t] + [] == [] + [t];
    } else {
      var r := Split(ts[1..]);
      SplitSnocOpen(ts[1..], t);
      assert full[1..] == ts[1..] + [t];
      if ts[0] == Plain(';') {
        LongerBehindCut(r, t);
      } else {
        LongerBehindToken(ts[0], r, t);
      }
    }
  }

  function TrimmedParts(parts: seq<string>): seq<string> {
    if parts == [] then []
    else
      var t := Trim(parts[0]);
      (if t == "" then [] else [t]) + TrimmedParts(parts[1..])
  }

  /** The splitting loop at `index`, with the piece from `start` on still open. */
  ghost predicate Splitting(sql: string, done: seq<Token>, statements: seq<string>, start: nat, index: nat) {
    && start <= index && Read(sql, false, done, index)
    && RenderAll(Split(done)) == statements + [sql[start..index]]
  }

  lemma {:induction false} SplittingStart(sql: string)
    ensures Splitting(sql, [], [], 0, 0)
  {
    ReadStart(sql, false);
    var none: seq<Token> := [];
    assert [none][1..] == [] && [] + [""] == [""];
    assert RenderAll([none]) == [""] + RenderAll([none][1..]);
  }

  lemma {:induction false} SplittingOpen(sql: string, done: seq<Token>, statements: seq<string>, start: nat, index: nat, t: Token, next: nat)
    requires Splitting(sql, done, statements, start, index) && index <= next <= |sql| && t != Plain(';')
    requires sql[index..next] == RenderToken(t) && Read(sql, false, done + [t], next)
    ensures Splitting(sql, done + [t], statements, start, next)
  {
    ExtendOpen(done, t, statements, sql[start..index]);
    assert sql[start..next] == sql[start..index] + sql[index..next];
  }

  lemma {:induction false} SplittingCut(sql: string, done: seq<Token>, statements: seq<string>, start: nat, index: nat)
    requires Splitting(sql, done, statements, start, index) && index < |sql| && sql[index] == ';'
    requires Read(sql, false, done + [Plain(';')], index + 1)
    ensures Splitting(sql, done + [Plain(';')], statements + [sql[start..index]], index + 1, index + 1)
  {
    ExtendCut(done);
    assert sql[index + 1..index + 1] == "";
  }

  /** Split on semicolons that are not inside a quoted run. */
  method SplitStatements(sql: string) returns (r: Result<seq<string>, Error>)
    ensures match Lex(sql, false)
            case Err(e) => r == Err(e)
            case Ok(ts) => r == Ok(RenderAll(NonBlank(Split(ts))))
  {
    var statements: seq<string> := [];
    var start, index := 0, 0;
    ghost var done: seq<Token> := [];
    SplittingStart(sql);
    while index < |sql|
      invariant start <= index <= |sql|
      invariant Splitting(sql, done, statements, start, index)
    {
      var c := sql[index];
      if IsOpener(c) {
        var skipped := SkipQuoted(sql, index);
        if skipped.Err? {
          ReadUnclosed(sql, false, done, index);
          return Err(skipped.error);
        }
        ghost var t := Quoted(c, ReadRun(sql[index + 1..], c).value.0);
        ReadQuoted(sql, false, done, index, t.payload, skipped.value);
        SplittingOpen(sql, done, statements, start, index, t, skipped.value);
        done := done + [t];
        index := skipped.value;
        continue;
      }
      ReadPlain(sql, false, done, index);
      if c == ';' {
        SplittingCut(sql, done, statements, start, index);
        statements := statements + [sql[start..index]];
        done := done + [Plain(c)];
        index := index + 1;
        start := index;
        continue;
      }
      SplittingOpen(sql, done, statements, start, index, Plain(c), index + 1);
      done := done + [Plain(c)];
      index := index + 1;
    }
    statements := statements + [sql[start..]];
    assert sql[start..] == sql[start..index];
    SplitDone(sql, done);
    TrimmedPieces(Split(done));
    r := Ok(TrimmedParts(statements));
  }

  lemma {:induction false} SplitDone(sql: string, done: seq<Token>)
    requires Read(sql, false, done, |sql|)
    ensures Lex(sql, false) == Ok(done)
    ensures forall i :: 0 <= i < |Split(done)| ==> Canonical(Split(done)[i], false)
  {
    ReadEnd(sql, false, done);
    LexRenders(sql);
    SplitCanonical(done, false);
  }

  /** A token that does not cut lengthens the piece that is open. */
  lemma {:induction false} RenderLonger(init: seq<seq<Token>>, last: seq<Token>, t: Token, before: seq<string>, text: string)
    requires RenderAll(init + [last]) == before + [text]
    ensures RenderAll(init + [last + [t]]) == before + [text + RenderToken(t)]
  {
    RenderAllSnoc(init, last);
    RenderAllSnoc(init, last + [t]);
    SnocInjective(RenderAll(init), Render(last), before, text);
    RenderSnoc(last, t);
  }

  lemma {:induction false} ExtendOpen(done: seq<Token>, t: Token, before: seq<string>, text: string)
    requires t != Plain(';') && RenderAll(Split(done)) == before + [text]
    ensures RenderAll(Split(done + [t])) == before + [text + RenderToken(t)]
  {
    SplitSnocOpen(done, t);
    ExtendPieces(Split(done), t, before, text);
  }

  lemma {:induction false} ExtendPieces(p: seq<seq<Token>>, t: Token, before: seq<string>, text: string)
    requires p != [] && RenderAll(p) == before + [text]
    ensures RenderAll(Longer(p, t)) == before + [text + RenderToken(t)]
  {
    var n := |p| - 1;
    assert p == p[..n] + [p[n]];
    RenderLonger(p[..n], p[n], t, before, text);
  }

  lemma {:induction false} SnocInjective(a: seq<string>, x: string, b: seq<string>, y: string)
    requires a + [x] == b + [y]
    ensures a == b && x == y
  {
    assert a == (a + [x])[..|a|] && b == (b + [y])[..|b|];
    assert x == (a + [x])[|a|] && y == (b + [y])[|b|];
  }

  lemma {:induction false} ExtendCut(done: seq<Token>)
    ensures RenderAll(Split(done + [Plain(';')])) == RenderAll(Split(done)) + [""]
  {
    SplitSnocCut(done);
    RenderAllSnoc(Split(done), []);
  }

  lemma {:induction false} TrimmedPieces(pieces: seq<seq<Token>>)
    requires forall i :: 0 <= i < |pieces| ==> Canonical(pieces[i], false)
    ensures TrimmedParts(RenderAll(pieces)) == RenderAll(NonBlank(pieces))
    decreases |pieces|
  {
    if pieces != [] {
      var first, rest := pieces[0], pieces[1..];
      TrimmedPieces(rest);
      assert Canonical(first, false);
      TrimRender(first);
      TrimmedCons(Render(first), RenderAll(rest));
      RenderAllCons(TrimTokens(first), NonBlank(rest));
    }
  }

  lemma {:induction false} TrimmedCons(part: string, parts: seq<string>)
    ensures TrimmedParts([part] + parts) == (if Trim(part) == "" then [] else [Trim(part)]) + TrimmedParts(parts)
  {
    assert ([part] + parts)[1..] == parts;
  }

  lemma {:induction false} RenderAllCons(p: seq<Token>, pieces: seq<seq<Token>>)
    ensures RenderAll([p] + pieces) == [Render(p)] + RenderAll(pieces)
    ensures [] + pieces == pieces && [] + RenderAll(pieces) == RenderAll(pieces)
  {
    assert ([p] + pieces)[1..] == pieces;
  }

  function DropWrapperText(s: string): string {
    if s != "" && Wrapper(s[0]) then DropWrapperText(s[1..]) else s
  }

  function BodyPrefix(s: string): (w: string)
    ensures w <= s
    ensures forall i :: 0 <= i < |w| ==> IdBody(w[i])
    ensures |w| < |s| ==> !IdBody(s[|w|])
  {
    if s != "" && IdBody(s[0]) then [s[0]] + BodyPrefix(s[1..]) else ""
  }

  function LeadingText(s: string): string {
    var w := BodyPrefix(DropWrapperText(s));
    if w == "" then NON_SQL else Upper(w)
  }

  /** The statement kind, ignoring wrapping parentheses around a select. */
  method LeadingKeyword(statement: string) returns (kind: string)
    ensures kind == LeadingText(statement)
  {
    var text := DropWrapperText(statement);
    var end := 0;
    while end < |text| && IdBody(text[end])
      invariant end <= |text|
      invariant forall i :: 0 <= i < end ==> IdBody(text[i])
    {
      end := end + 1;
    }
    PrefixIs(text, end);
    kind := if end == 0 then NON_SQL else Upper(text[..end]);
  }

  /** Opening parentheses, blanks, tabs and line ends in front do not change the kind; behind
      them, a text that does not go on with an identifier character has none. */
  lemma {:induction false} WrappersIgnored(c: char, s: string)
    ensures c in "( \t\r\n" ==> LeadingText([c] + s) == LeadingText(s)
    ensures c !in "( \t\r\n" && !IdBody(c) ==> LeadingText([c] + s) == NON_SQL
  {
    var w := "( \t\r\n";
    assert w[0] == '(' && w[1] == ' ' && w[2] == '\t' && w[3] == '\r' && w[4] == '\n';
    assert ([c] + s)[1..] == s;
  }

  lemma {:induction false} PrefixIs(s: string, n: nat)
    requires n <= |s| && (forall i :: 0 <= i < n ==> IdBody(s[i])) && (n < |s| ==> !IdBody(s[n]))
    ensures BodyPrefix(s) == s[..n]
  {
    assert |BodyPrefix(s)| == n;
  }

  /** Reading a text that begins with a word of plain characters. */
  lemma {:induction false} LexWord(s: string)
    ensures var w := BodyPrefix(s);
            match Lex(s[|w|..], false)
            case Err(e) => Lex(s, false) == Err(e)
            case Ok(us) =>
              && Lex(s, false).Ok? && |w| <= |Lex(s, false).value|
              && Lex(s, false).value[|w|..] == us && WordText(Lex(s, false).value) == w
    decreases |s|
  {
    var w := BodyPrefix(s);
    if w == "" {
      assert s[0..] == s;
      if Lex(s, false).Ok? && Lex(s, false).value != [] { LexHead(s, false); }
    } else {
      LexWord(s[1..]);
      assert w == [s[0]] + BodyPrefix(s[1..]);
      assert s[1..][|w| - 1..] == s[|w|..];
      if Lex(s[1..], false).Ok? {
        assert Lex(s, false).value[1..] == Lex(s[1..], false).value;
        assert Lex(s, false).value[|w|..] == Lex(s[1..], false).value[|w| - 1..];
      }
    }
  }

  lemma {:induction false} LeadingOfLex(s: string)
    requires Lex(s, false).Ok?
    ensures LeadingText(s) == Leading(Lex(s, false).value)
    decreases |s|
  {
    var ts := Lex(s, false).value;
    if s != "" && Wrapper(s[0]) {
      LeadingOfLex(s[1..]);
      assert ts[1..] == Lex(s[1..], false).value;
    } else {
      if ts != [] { LexHead(s, false); }
      LexWord(s);
    }
  }

  /** The bare words of the whole text are those found before `index` and those behind it. */
  ghost predicate Spelled(text: string, words: seq<string>, index: nat) {
    index <= |text| &&
    match Lex(text[index..], false)
    case Err(e) => Lex(text, false) == Err(e)
    case Ok(us) => Lex(text, false).Ok? && Words(Lex(text, false).value) == words + Words(us)
  }

  lemma {:induction false} SpelledSkip(text: string, words: seq<string>, index: nat, t: Token, next: nat)
    requires Spelled(text, words, index) && next <= |text| && (t.Plain? ==> !IdStart(t.c))
    requires Lex(text[index..], false) == Cons(t, Lex(text[next..], false))
    ensures Spelled(text, words, next)
  {
    var tail := Lex(text[next..], false);
    if tail.Ok? { assert ([t] + tail.value)[1..] == tail.value; }
  }

  lemma {:induction false} SpelledWord(text: string, words: seq<string>, index: nat, next: nat)
    requires Spelled(text, words, index) && index < next <= |text| && IdStart(text[index])
    requires forall i :: index <= i < next ==> IdBody(text[i])
    requires next < |text| ==> !IdBody(text[next])
    ensures Spelled(text, words + [Upper(text[index..next])], next)
  {
    var rest := text[index..];
    PrefixIs(rest, next - index);
    LexWord(rest);
    assert rest[next - index..] == text[next..];
    assert rest[..next - index] == text[index..next];
    if Lex(rest, false).Ok? {
      LexHead(rest, false);
      var us := Lex(rest, false).value;
      assert Words(us) == [Upper(text[index..next])] + Words(us[next - index..]);
    }
  }

  /** Every bare word outside a quoted run, upper-cased. */
  method Keywords(statement: string) returns (r: Result<seq<string>, Error>)
    ensures match Lex(statement, false)
            case Err(e) => r == Err(e)
            case Ok(ts) => r == Ok(Words(ts))
  {
    var words: seq<string> := [];
    var index := 0;
    assert Spelled(statement, words, 0) by { assert statement[0..] == statement; }
    while index < |statement|
      invariant Spelled(statement, words, index)
    {
      var c := statement[index];
      if IsOpener(c) {
        var skipped := SkipQuoted(statement, index);
        if skipped.Err? {
          LexUnclosedAt(statement, index, false);
          return Err(skipped.error);
        }
        ghost var t := Quoted(c, ReadRun(statement[index + 1..], c).value.0);
        LexQuotedAt(statement, index, skipped.value, t.payload, false);
        SpelledSkip(statement, words, index, t, skipped.value);
        index := skipped.value;
        continue;
      }
      if IdStart(c) {
        var start := index;
        while index < |statement| && IdBody(statement[index])
          invariant start <= index <= |statement|
          invariant forall i :: start <= i < index ==> IdBody(statement[i])
        {
          index := index + 1;
        }
        SpelledWord(statement, words, start, index);
        words := words + [Upper(statement[start..index])];
        continue;
      }
      LexPlainAt(statement, index, false);
      SpelledSkip(statement, words, index, Plain(c), index + 1);
      index := index + 1;
    }
    assert statement[index..] == "";
    assert words + [] == words;
    r := Ok(words);
  }

  // ------------------------------------------------------------ the gate

  /** A trimmed statement without separators that every scan reads alike. */
  ghost predicate Settled(p: seq<Token>) {
    Canonical(p, true) && Plain(';') !in p && p != [] && TrimTokens(p) == p
  }

  lemma {:induction false} NonBlankSettled(pieces: seq<seq<Token>>)
    requires forall i :: 0 <= i < |pieces| ==> Canonical(pieces[i], true) && Plain(';') !in pieces[i]
    ensures forall p :: p in NonBlank(pieces) ==> Settled(p)
    decreases |pieces|
  {
    if pieces != [] {
      NonBlankSettled(pieces[1..]);
      assert Canonical(pieces[0], true) && Plain(';') !in pieces[0];
      TrimCanonical(pieces[0], true);
      TrimTokensIdempotent(TrimTokens(pieces[0]));
    }
  }

  /** Every statement the splitter hands on is scanned by the keyword scan to
      the tokens the stripper saw. */
  lemma {:induction false} StatementRelex(ts: seq<Token>, p: seq<Token>)
    requires Canonical(ts, true) && p in NonBlank(Split(ts))
    ensures Settled(p) && Lex(Render(p), false) == Ok(p) && Lex(Render(p), true) == Ok(p)
    ensures Trim(Render(p)) == Render(p) && Render(p) != ""
  {
    SplitCanonical(ts, true);
    NonBlankSettled(Split(ts));
    LexRender(p, true);
    CanonicalWithoutComments(p);
    LexRender(p, false);
    TrimRender(p);
  }

  /** The one statement to run, or why it is refused. */
  method EnsureReadOnly(sql: string) returns (r: Result<string, Error>)
    ensures r == Guard(sql, FORBIDDEN_KEYWORDS)
  {
    if Trim(sql) == "" {
      return Err(EmptyStatement);
    }
    var stripped := StripSqlComments(sql);
    if stripped.Err? {
      return Err(stripped.error);
    }
    StrippedRelex(sql);
    ghost var ts := Decomment(Lex(sql, true).value);
    var split := SplitStatements(stripped.value);
    var statements := split.value;
    if |statements| == 0 {
      return Err(EmptyStatement);
    }
    if |statements| > 1 {
      return Err(ManyStatements(|statements|));
    }
    var statement := statements[0];
    ghost var piece := NonBlank(Split(ts))[0];
    StatementRelex(ts, piece);
    var kind := LeadingKeyword(statement);
    LeadingOfLex(statement);
    if kind != SELECT && kind != WITH {
      return Err(NotReadOnly(kind));
    }
    var keywords := Keywords(statement);
    var forbidden := FirstIn(FORBIDDEN_KEYWORDS, keywords.value);
    if forbidden.Some? {
      return Err(ForbiddenWord(forbidden.value));
    }
    if kind == WITH && SELECT !in keywords.value {
      return Err(WithWithoutSelect);
    }
    r := Ok(statement);
  }

  // ------------------------------------------------------------ guarantees

  function QuotedRuns(ts: seq<Token>): seq<Token> {
    if ts == [] then [] else (if ts[0].Quoted? then [ts[0]] else []) + QuotedRuns(ts[1..])
  }

  lemma {:induction false} DecommentKeepsQuotes(ts: seq<Token>)
    ensures QuotedRuns(Decomment(ts)) == QuotedRuns(ts)
    decreases |ts|
  {
    if ts != [] {
      DecommentKeepsQuotes(ts[1..]);
      assert Decomment(ts)[1..] == Decomment(ts[1..]);
    }
  }

  /** Stripping is idempotent, leaves no comment and keeps every quoted run. */
  lemma {:induction false} StripIdempotent(sql: string)
    requires Lex(sql, true).Ok?
    ensures var out := Render(Lex(sql, true).value);
            && Lex(out, true).Ok?
            && Render(Lex(out, true).value) == out
            && Comment !in Lex(out, true).value
            && QuotedRuns(Lex(out, true).value) == QuotedRuns(Lex(sql, true).value)
            && Lex(out, false) == Lex(out, true)
  {
    StrippedRelex(sql);
    var ts := Decomment(Lex(sql, true).value);
    DecommentKeepsQuotes(Lex(sql, true).value);
    forall i | 0 <= i < |ts| ensures ts[i] != Comment { assert WellFormed(ts[i]); }
  }

  /** A piece whose quotes close, before and after trimming. */
  ghost predicate Balanced(piece: string) {
    Final(Outside, piece).Outside? && Lex(piece, false).Ok? && Lex(Trim(piece), false).Ok?
  }

  lemma {:induction false} CanonicalBalanced(p: seq<Token>)
    requires Canonical(p, false)
    ensures Balanced(Render(p))
  {
    LexRender(p, false);
    LexToggles(Render(p));
    TrimRender(p);
    TrimCanonical(p, false);
    LexRender(TrimTokens(p), false);
  }

  /** On stripped text the untrimmed pieces rebuild it, each piece is balanced,
      and neither the splitter nor the keyword scan can complain about quotes. */
  lemma {:induction false} SplitAndRejoin(sql: string)
    requires Lex(sql, true).Ok?
    ensures var out := Render(Lex(sql, true).value);
            && Lex(out, false).Ok?
            && var pieces := RenderAll(Split(Lex(out, false).value));
            && JoinTexts(pieces) == out
            && (forall i :: 0 <= i < |pieces| ==> Balanced(pieces[i]))
  {
    StrippedRelex(sql);
    var ts := Decomment(Lex(sql, true).value);
    CanonicalWithoutComments(ts);
    SplitRejoins(ts);
    SplitCanonical(ts, false);
    var pieces := Split(ts);
    forall i | 0 <= i < |pieces| ensures Balanced(RenderAll(pieces)[i]) {
      RenderAllAt(pieces, i);
      CanonicalBalanced(pieces[i]);
    }
  }

  lemma {:induction false} InspectKeeps(p: seq<Token>, banned: seq<string>)
    requires Inspect(p, banned).Ok?
    ensures Inspect(p, banned).value == p
  {
  }

  lemma {:induction false} JudgedPiece(statements: seq<seq<Token>>, banned: seq<string>)
    requires Judge(statements, banned).Ok?
    ensures |statements| == 1 && Judge(statements, banned).value == statements[0]
  {
    InspectKeeps(statements[0], banned);
  }

  lemma {:induction false} GuardedPiece(ts: seq<Token>, banned: seq<string>)
    requires GuardTokens(ts, banned).Ok?
    ensures |NonBlank(Split(ts))| == 1 && GuardTokens(ts, banned).value == NonBlank(Split(ts))[0]
  {
    JudgedPiece(NonBlank(Split(ts)), banned);
  }

  lemma {:induction false} GuardedStatement(ts: seq<Token>, banned: seq<string>)
    requires GuardTokens(ts, banned).Ok?
    ensures var p := GuardTokens(ts, banned).value;
            Inspect(p, banned) == Ok(p) && p in NonBlank(Split(ts))
  {
    var statements := NonBlank(Split(ts));
    GuardedPiece(ts, banned);
    InspectKeeps(statements[0], banned);
    assert statements[0] in statements;
  }

  /** The verdict on a text whose quotes and comments close. */
  lemma {:induction false} GuardVerdict(s: string, banned: seq<string>)
    requires Lex(s, true).Ok? && Trim(s) != ""
    ensures match GuardTokens(Decomment(Lex(s, true).value), banned)
            case Err(e) => Guard(s, banned) == Err(e)
            case Ok(p) =>
              && Guard(s, banned) == Ok(Render(p)) && Inspect(p, banned) == Ok(p) && Settled(p)
              && Lex(Render(p), false) == Ok(p) && Lex(Render(p), true) == Ok(p)
              && Trim(Render(p)) == Render(p) && Render(p) != ""
  {
    LexCanonical(s, true);
    var ts := Decomment(Lex(s, true).value);
    if GuardTokens(ts, banned).Ok? {
      GuardedStatement(ts, banned);
      StatementRelex(ts, GuardTokens(ts, banned).value);
    }
  }

  /** What the gate lets through passes the gate unchanged. */
  lemma {:induction false} GuardFixedPoint(sql: string, banned: seq<string>)
    requires Guard(sql, banned).Ok?
    ensures Guard(Guard(sql, banned).value, banned) == Guard(sql, banned)
  {
    GuardVerdict(sql, banned);
    PieceFixed(GuardTokens(Decomment(Lex(sql, true).value), banned).value, banned);
  }

  lemma {:induction false} PieceFixed(p: seq<Token>, banned: seq<string>)
    requires Settled(p) && Inspect(p, banned) == Ok(p) && Lex(Render(p), true) == Ok(p)
    requires Trim(Render(p)) == Render(p) && Render(p) != ""
    ensures Guard(Render(p), banned) == Ok(Render(p))
  {
    DecommentCanonical(p);
    SettledAlone(p);
    JudgeOne(p, banned);
  }

  lemma {:induction false} SettledAlone(p: seq<Token>)
    requires Settled(p)
    ensures NonBlank(Split(p)) == [p]
  {
    SplitOfOne(p);
    assert NonBlank([p]) == [p] by {
      assert [p][1..] == [];
      assert NonBlank([p][1..]) == [];
    }
  }

  lemma {:induction false} JudgeOne(p: seq<Token>, banned: seq<string>)
    ensures Judge([p], banned) == Inspect(p, banned)
  {
  }

  lemma {:induction false} DecommentCanonical(ts: seq<Token>)
    requires Canonical(ts, true)
    ensures Decomment(ts) == ts
  {
    forall i | 0 <= i < |ts| ensures Decomment(ts)[i] == ts[i] { assert WellFormed(ts[i]); }
  }

  /** Nothing outside quotes separates statements or opens a comment. */
  ghost predicate CleanText(text: string) {
    forall i :: 0 <= i < |text| ==> CleanAt(text, Mask(Outside, text), i)
  }

  /** What the gate lets through, in terms of characters and the quote automaton:
      one trimmed statement that ends outside quotes and is clean. */
  lemma {:induction false} AcceptedText(sql: string, banned: seq<string>)
    requires Guard(sql, banned).Ok?
    ensures var text := Guard(sql, banned).value;
            Trim(text) == text && text != "" && Final(Outside, text).Outside? && CleanText(text)
  {
    GuardVerdict(sql, banned);
    var p := GuardTokens(Decomment(Lex(sql, true).value), banned).value;
    var text := Render(p);
    LexToggles(text);
    forall i | 0 <= i < |text| ensures CleanAt(text, Mask(Outside, text), i) { CanonicalIsClean(p, i); }
  }

  lemma {:induction false} InspectedWords(p: seq<Token>, banned: seq<string>)
    requires Inspect(p, banned).Ok?
    ensures Words(p) != [] && Words(p)[0] == Leading(p) && (Leading(p) == SELECT || Leading(p) == WITH)
    ensures SELECT in Words(p)
    ensures forall w :: w in banned ==> w !in Words(p)
  {
    LeadingIsFirstWord(p);
    assert FirstIn(banned, Words(p)).None?;
    assert Words(p)[0] in Words(p);
  }

  /** What the gate lets through, in terms of bare words: the first is SELECT or
      WITH and is the statement kind, SELECT occurs, no forbidden word does. */
  lemma {:induction false} AcceptedWords(sql: string, banned: seq<string>)
    requires Guard(sql, banned).Ok?
    ensures var text := Guard(sql, banned).value;
            && Lex(text, false).Ok?
            && var words := Words(Lex(text, false).value);
            && words != [] && (words[0] == SELECT || words[0] == WITH) && words[0] == LeadingText(text)
            && SELECT in words
            && (forall w :: w in banned ==> w !in words)
  {
    GuardVerdict(sql, banned);
    var p := GuardTokens(Decomment(Lex(sql, true).value), banned).value;
    LeadingOfLex(Render(p));
    InspectedWords(p, banned);
  }

  lemma {:induction false} NonBlankStep(x: seq<Token>, y: seq<Token>, a: seq<seq<Token>>, b: seq<seq<Token>>, fold: bool)
    requires SameShape(x, y, fold) && SameShapes(a, b, fold)
    ensures SameShapes((if x == [] then [] else [x]) + a, (if y == [] then [] else [y]) + b, fold)
  {
    if x == [] {
      assert [] + a == a && [] + b == b;
    } else {
      ShapesCons(x, y, a, b, fold);
    }
  }

  lemma {:induction false} NonBlankShape(a: seq<seq<Token>>, b: seq<seq<Token>>, fold: bool)
    requires SameShapes(a, b, fold)
    ensures SameShapes(NonBlank(a), NonBlank(b), fold)
    decreases |a|
  {
    if a != [] {
      ShapesTail(a, b, fold);
      TrimShape(a[0], b[0], fold);
      NonBlankShape(a[1..], b[1..], fold);
      NonBlankStep(TrimTokens(a[0]), TrimTokens(b[0]), NonBlank(a[1..]), NonBlank(b[1..]), fold);
    }
  }

  lemma {:induction false} DecommentShape(a: seq<Token>, b: seq<Token>, fold: bool)
    requires SameShape(a, b, fold)
    ensures SameShape(Decomment(a), Decomment(b), fold)
  {
    forall i | 0 <= i < |a| ensures SameToken(Decomment(a)[i], Decomment(b)[i], fold) { assert SameToken(a[i], b[i], fold); }
  }

  lemma {:induction false} InspectShape(a: seq<Token>, b: seq<Token>, banned: seq<string>, fold: bool)
    requires SameShape(a, b, fold)
    ensures Words(a) == Words(b)
    ensures match Inspect(a, banned)
            case Ok(x) => x == a && Inspect(b, banned) == Ok(b)
            case Err(e) => Inspect(b, banned) == Err(e)
  {
    LeadingShape(a, b, fold);
    WordsShape(a, b, fold);
  }

  lemma {:induction false} StatementsShape(a: seq<Token>, b: seq<Token>, fold: bool)
    requires SameShape(a, b, fold)
    ensures SameShapes(NonBlank(Split(a)), NonBlank(Split(b)), fold)
  {
    SplitShape(a, b, fold);
    NonBlankShape(Split(a), Split(b), fold);
  }

  lemma {:induction false} GuardOfOne(ts: seq<Token>, banned: seq<string>)
    requires |NonBlank(Split(ts))| == 1
    ensures GuardTokens(ts, banned) == Inspect(NonBlank(Split(ts))[0], banned)
  {
  }

  lemma {:induction false} GuardTokensShape(a: seq<Token>, b: seq<Token>, banned: seq<string>, fold: bool)
    requires SameShape(a, b, fold)
    ensures match GuardTokens(a, banned)
            case Ok(x) => GuardTokens(b, banned).Ok? && SameShape(x, GuardTokens(b, banned).value, fold)
            case Err(e) => GuardTokens(b, banned) == Err(e)
  {
    StatementsShape(a, b, fold);
    var x, y := NonBlank(Split(a)), NonBlank(Split(b));
    if |x| == 1 {
      assert SameShape(x[0], y[0], fold);
      GuardOfOne(a, banned);
      GuardOfOne(b, banned);
      InspectShape(x[0], y[0], banned, fold);
    }
  }

  predicate AllBlank(ts: seq<Token>) {
    ts == [] || (Blank(ts[0]) && AllBlank(ts[1..]))
  }

  lemma {:induction false} AllBlankShape(a: seq<Token>, b: seq<Token>, fold: bool)
    requires SameShape(a, b, fold)
    ensures AllBlank(a) <==> AllBlank(b)
    decreases |a|
  {
    if a != [] {
      assert SameToken(a[0], b[0], fold);
      if a[0].Plain? { UpperSameLetter(a[0].c, b[0].c); }
      AllBlankShape(a[1..], b[1..], fold);
    }
  }

  lemma {:induction false} TrimRightKeeps(s: string)
    requires s != "" && !IsSpace(s[0])
    ensures TrimRight(s) != ""
    decreases |s|
  {
    if IsSpace(s[|s| - 1]) { TrimRightKeeps(s[..|s| - 1]); }
  }

  /** A text is blank exactly when all its tokens are. */
  lemma {:induction false} BlankText(s: string)
    requires Lex(s, true).Ok?
    ensures Trim(s) == "" <==> AllBlank(Lex(s, true).value)
    decreases |s|
  {
    if s != "" {
      if IsSpace(s[0]) {
        BlankText(s[1..]);
        assert Lex(s, true).value[1..] == Lex(s[1..], true).value;
      } else {
        TrimRightKeeps(s);
        assert !Blank(Lex(s, true).value[0]);
      }
    }
  }

  /** Texts of the same shape are cut into as many statements with the same bare words, and
      get the same verdict for the same reason; what is returned has the same shape. */
  lemma {:induction false} SameVerdict(s: string, t: string, banned: seq<string>, fold: bool)
    requires Lex(s, true).Ok? && Lex(t, true).Ok?
    requires SameShape(Lex(s, true).value, Lex(t, true).value, fold)
    ensures var a, b := Decomment(Lex(s, true).value), Decomment(Lex(t, true).value);
            && SameShapes(NonBlank(Split(a)), NonBlank(Split(b)), fold)
            && Words(a) == Words(b)
    ensures match Guard(s, banned)
            case Err(e) => Guard(t, banned) == Err(e)
            case Ok(x) =>
              && Guard(t, banned).Ok? && Lex(x, false).Ok? && Lex(Guard(t, banned).value, false).Ok?
              && SameShape(Lex(x, false).value, Lex(Guard(t, banned).value, false).value, fold)
  {
    var a, b := Lex(s, true).value, Lex(t, true).value;
    BlankText(s);
    BlankText(t);
    AllBlankShape(a, b, fold);
    DecommentShape(a, b, fold);
    StatementsShape(Decomment(a), Decomment(b), fold);
    WordsShape(Decomment(a), Decomment(b), fold);
    if Trim(s) != "" {
      GuardTokensShape(Decomment(a), Decomment(b), banned, fold);
      GuardVerdict(s, banned);
      GuardVerdict(t, banned);
    }
  }

  /** Quoted text is pure data: this holds of texts that differ only inside quoted runs. */
  lemma {:induction false} QuotedTextIsData(s: string, t: string, banned: seq<string>)
    requires Lex(s, true).Ok? && Lex(t, true).Ok?
    requires SameShape(Lex(s, true).value, Lex(t, true).value, false)
    ensures var a, b := Decomment(Lex(s, true).value), Decomment(Lex(t, true).value);
            && SameShapes(NonBlank(Split(a)), NonBlank(Split(b)), false)
            && Words(a) == Words(b)
    ensures match Guard(s, banned)
            case Err(e) => Guard(t, banned) == Err(e)
            case Ok(x) =>
              && Guard(t, banned).Ok? && Lex(x, false).Ok? && Lex(Guard(t, banned).value, false).Ok?
              && SameShape(Lex(x, false).value, Lex(Guard(t, banned).value, false).value, false)
  {
    SameVerdict(s, t, banned, false);
  }
}
