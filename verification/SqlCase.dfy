/** The gate does not care about the case of letters, wherever they stand. */
module SqlCase {
  import opened Outcome
  import opened Text
  import opened SqlLexer
  import opened SqlStatements
  import opened SqlGuard

  /** The same text up to the case of letters. */
  predicate Recased(s: string, t: string) {
    |s| == |t| && forall i :: 0 <= i < |s| ==> SameLetter(s[i], t[i])
  }

  lemma {:induction false} RecasedTail(s: string, t: string, n: nat)
    requires Recased(s, t) && n <= |s|
    ensures Recased(s[n..], t[n..])
  {
    forall i | 0 <= i < |s| - n ensures SameLetter(s[n..][i], t[n..][i]) { assert SameLetter(s[n + i], t[n + i]); }
  }

  /** Only letters have a case. */
  predicate Caseless(c: char) {
    !('a' <= c <= 'z') && !('A' <= c <= 'Z')
  }

  lemma {:induction false} CaselessSame(c: char, d: char, x: char)
    requires SameLetter(c, d) && Caseless(x)
    ensures c == x <==> d == x
  {
  }

  lemma {:induction false} RecasedAt(s: string, t: string, i: nat, x: char)
    requires Recased(s, t) && i < |s| && Caseless(x)
    ensures s[i] == x <==> t[i] == x
  {
    CaselessSame(s[i], t[i], x);
  }

  lemma {:induction false} OpenerCaseless(q: char)
    requires IsOpener(q)
    ensures Caseless(q) && Caseless(Closer(q))
  {
  }

  /** A run is read to the same place. */
  lemma {:induction false} ReadRunRecased(s: string, t: string, q: char)
    requires Recased(s, t) && IsOpener(q)
    ensures match ReadRun(s, q)
            case None => ReadRun(t, q) == None
            case Some((_, rest)) => ReadRun(t, q).Some? && Recased(rest, ReadRun(t, q).value.1)
    decreases |s|
  {
    if s != "" {
      OpenerCaseless(q);
      RecasedAt(s, t, 0, Closer(q));
      RecasedTail(s, t, 1);
      if s[0] != Closer(q) {
        ReadRunRecased(s[1..], t[1..], q);
      } else if |s| > 1 {
        RecasedAt(s, t, 1, Closer(q));
        RecasedTail(s, t, 2);
        ReadRunRecased(s[2..], t[2..], q);
      }
    }
  }

  lemma {:induction false} AfterLineRecased(s: string, t: string)
    requires Recased(s, t)
    ensures Recased(AfterLine(s), AfterLine(t))
    decreases |s|
  {
    if s != "" {
      RecasedAt(s, t, 0, '\n');
      RecasedTail(s, t, 1);
      AfterLineRecased(s[1..], t[1..]);
    }
  }

  lemma {:induction false} AfterBlockRecased(s: string, t: string)
    requires Recased(s, t)
    ensures match AfterBlock(s)
            case None => AfterBlock(t) == None
            case Some(rest) => AfterBlock(t).Some? && Recased(rest, AfterBlock(t).value)
    decreases |s|
  {
    if |s| >= 2 {
      RecasedAt(s, t, 0, '*');
      RecasedAt(s, t, 1, '/');
      RecasedTail(s, t, 1);
      RecasedTail(s, t, 2);
      AfterBlockRecased(s[1..], t[1..]);
    }
  }

  /** Two scans end alike: with the same error, or with tokens of the same shape. */
  predicate SameScan(a: Result<seq<Token>, Error>, b: Result<seq<Token>, Error>) {
    match a
    case Err(e) => b == Err(e)
    case Ok(ts) => b.Ok? && SameShape(ts, b.value, true)
  }

  lemma {:induction false} ConsScan(x: Token, y: Token, a: Result<seq<Token>, Error>, b: Result<seq<Token>, Error>)
    requires SameToken(x, y, true) && SameScan(a, b)
    ensures SameScan(Cons(x, a), Cons(y, b))
  {
  }

  lemma {:induction false} CommentsRecased(s: string, t: string)
    requires Recased(s, t)
    ensures StartsLineComment(s) <==> StartsLineComment(t)
    ensures StartsBlockComment(s) <==> StartsBlockComment(t)
  {
    if |s| >= 2 {
      RecasedAt(s, t, 0, '-');
      RecasedAt(s, t, 1, '-');
      RecasedAt(s, t, 0, '/');
      RecasedAt(s, t, 1, '*');
    }
  }

  lemma {:induction false} OpenerRecased(c: char, d: char)
    requires SameLetter(c, d)
    ensures (IsOpener(c) <==> IsOpener(d)) && (IsOpener(c) ==> c == d)
  {
  }

  lemma {:induction false} LexRecased(s: string, t: string)
    requires Recased(s, t)
    ensures SameScan(Lex(s, true), Lex(t, true))
    decreases |s|, 1
  {
    if s != "" {
      OpenerRecased(s[0], t[0]);
      CommentsRecased(s, t);
      RecasedTail(s, t, 1);
      if IsOpener(s[0]) {
        LexRunRecased(s, t);
      } else if StartsLineComment(s) {
        AfterLineRecased(s[1..], t[1..]);
        LexRecased(AfterLine(s[1..]), AfterLine(t[1..]));
        ConsScan(Comment, Comment, Lex(AfterLine(s[1..]), true), Lex(AfterLine(t[1..]), true));
      } else if StartsBlockComment(s) {
        LexBlockRecased(s, t);
      } else {
        LexRecased(s[1..], t[1..]);
        ConsScan(Plain(s[0]), Plain(t[0]), Lex(s[1..], true), Lex(t[1..], true));
      }
    }
  }

  lemma {:induction false} LexRunRecased(s: string, t: string)
    requires Recased(s, t) && s != "" && IsOpener(s[0]) && t[0] == s[0]
    ensures SameScan(Lex(s, true), Lex(t, true))
    decreases |s|, 0
  {
    RecasedTail(s, t, 1);
    ReadRunRecased(s[1..], t[1..], s[0]);
    if ReadRun(s[1..], s[0]).Some? {
      var (p, x) := ReadRun(s[1..], s[0]).value;
      var (r, y) := ReadRun(t[1..], t[0]).value;
      LexRecased(x, y);
      ConsScan(Quoted(s[0], p), Quoted(t[0], r), Lex(x, true), Lex(y, true));
    }
  }

  lemma {:induction false} LexBlockRecased(s: string, t: string)
    requires Recased(s, t) && StartsBlockComment(s) && StartsBlockComment(t)
    ensures SameScan(Lex(s, true), Lex(t, true))
    decreases |s|, 0
  {
    RecasedTail(s, t, 2);
    AfterBlockRecased(s[2..], t[2..]);
    if AfterBlock(s[2..]).Some? {
      var x, y := AfterBlock(s[2..]).value, AfterBlock(t[2..]).value;
      LexRecased(x, y);
      ConsScan(Comment, Comment, Lex(x, true), Lex(y, true));
    }
  }

  lemma {:induction false} BlankIff(s: string)
    ensures Trim(s) == "" <==> forall i :: 0 <= i < |s| ==> IsSpace(s[i])
    decreases |s|
  {
    if s != "" {
      if IsSpace(s[0]) {
        BlankIff(s[1..]);
        assert forall i :: 0 < i < |s| ==> s[i] == s[1..][i - 1];
      } else {
        TrimRightKeeps(s);
      }
    }
  }

  lemma {:induction false} TrimRecased(s: string, t: string)
    requires Recased(s, t)
    ensures Trim(s) == "" <==> Trim(t) == ""
  {
    BlankIff(s);
    BlankIff(t);
    forall i | 0 <= i < |s| ensures IsSpace(s[i]) <==> IsSpace(t[i]) { UpperSameLetter(s[i], t[i]); }
  }

  /** Texts that differ only in the case of letters, anywhere, get the same verdict for the
      same reason, and have the same bare words if their quotes and comments close. */
  lemma {:induction false} CaseIsIgnored(s: string, t: string, banned: seq<string>)
    requires Recased(s, t)
    ensures Lex(s, true).Ok? <==> Lex(t, true).Ok?
    ensures Lex(s, true).Ok? ==> Words(Decomment(Lex(s, true).value)) == Words(Decomment(Lex(t, true).value))
    ensures match Guard(s, banned)
            case Err(e) => Guard(t, banned) == Err(e)
            case Ok(_) => Guard(t, banned).Ok?
  {
    LexRecased(s, t);
    TrimRecased(s, t);
    if Lex(s, true).Ok? {
      SameVerdict(s, t, banned, true);
    }
  }
}
