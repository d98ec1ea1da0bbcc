/**
 Which redirection a line asks for, read off its characters: the tree the grammar
 gives a line opens every file the way the signs before its name say.
 */
module ShellRedirect {
  import opened Common
  import opened ShellText
  import opened ShellGrammar

  // Where the text before position `q` ends, white space aside.
  ghost function EndBefore(t: seq<char>, q: nat): (e: nat)
    requires q <= |t|
    ensures e <= q && (forall x :: e <= x < q ==> Space(t[x])) && (e > 0 ==> !Space(t[e - 1]))
  {
    if q > 0 && Space(t[q - 1]) then EndBefore(t, q - 1) else q
  }

  // How many '>' there are in a row before position `e`.
  function Arrows(t: seq<char>, e: nat): nat
    requires e <= |t|
  {
    if e > 0 && t[e - 1] == '>' then Arrows(t, e - 1) + 1 else 0
  }

  // '<' before a file name opens it for reading; '>' alone truncates it, and '>>' appends to it.  In a longer row of
  // '>' the signs are paired from the left.
  ghost predicate Written(t: seq<char>, q: nat, mode: Mode) {
    && q <= |t| && EndBefore(t, q) > 0
    && var e := EndBefore(t, q);
    && (mode == Mode.Read <==> t[e - 1] == '<') && (mode != Mode.Read <==> t[e - 1] == '>')
    && (mode == Truncate <==> Arrows(t, e) % 2 == 1)
  }

  // Every redirection of the tree is as written.
  ghost predicate AsWritten(t: seq<char>, c: Cmd) {
    match c
    case Exec(_) => true
    case Redir(d, file, mode) => Written(t, file.q, mode) && AsWritten(t, d)
    case Pipe(l, r) => AsWritten(t, l) && AsWritten(t, r)
    case List(l, r) => AsWritten(t, l) && AsWritten(t, r)
    case Back(d) => AsWritten(t, d)
  }

  // ----- tokens -----

  // A token cannot start between the two signs of a pair.
  ghost predicate Balanced(t: seq<char>, a: nat) {
    a < |t| && (t[a] == '>' ==> Arrows(t, a) % 2 == 0)
  }

  lemma TokenBalanced(t: seq<char>, p: nat)
    requires Line(t) && p < |t| && !Space(t[p]) && t[p] != NUL && Balanced(t, p)
    ensures Balanced(t, TokenAt(t, p).1)
  {
    var e := TokenAt(t, p).1;
    if TokenAt(t, p).0.Shift? {
      assert Arrows(t, e) == Arrows(t, e - 1) + 1 == Arrows(t, p) + 2;
    } else if Plain(t[p]) {
      assert t[e - 1] != '>';
    }
  }

  lemma OpWritten(t: seq<char>, p: nat)
    requires Line(t) && p < |t| && !Space(t[p]) && t[p] != NUL && Balanced(t, p) && RedirOp(TokenAt(t, p).0).Some?
    ensures Written(t, SkipSpaces(t, TokenAt(t, p).1), RedirOp(TokenAt(t, p).0).value)
  {
    var (tok, e) := TokenAt(t, p);
    assert EndBefore(t, SkipSpaces(t, e)) == e;
    if tok.Shift? {
      assert Arrows(t, e) == Arrows(t, e - 1) + 1 == Arrows(t, p) + 2;
    } else if t[p] == '>' {
      assert Arrows(t, e) == Arrows(t, p) + 1;
    }
  }

  ghost predicate PairWritten(t: seq<char>, op: Token, name: Token) {
    RedirOp(op).Some? && name.Text? ==> Written(t, name.w.q, RedirOp(op).value)
  }

  ghost predicate Pairs(t: seq<char>, ts: seq<Token>) {
    forall j :: 0 < j < |ts| ==> PairWritten(t, ts[j - 1], ts[j])
  }

  lemma {:induction false} LexPairs(t: seq<char>, a: nat)
    requires Line(t) && a < |t| && Balanced(t, a)
    ensures Pairs(t, Lex(t, a))
    decreases |t| - a
  {
    var p := SkipSpaces(t, a);
    if t[p] != NUL {
      assert Balanced(t, p);
      var (tok, e) := TokenAt(t, p);
      TokenBalanced(t, p);
      LexPairs(t, e);
      if RedirOp(tok).Some? { OpWritten(t, p); }
      var ts, rest := Lex(t, a), Lex(t, e);
      forall j | 0 < j < |ts| ensures PairWritten(t, ts[j - 1], ts[j]) {
        if j > 1 { assert PairWritten(t, rest[j - 2], rest[j - 1]); }
      }
    }
  }

  lemma PairsWithin(t: seq<char>, ts: seq<Token>, i: nat, j: nat)
    requires Pairs(t, ts) && i <= j <= |ts|
    ensures Pairs(t, ts[i..j])
  {
    forall k | 0 < k < j - i ensures PairWritten(t, ts[i..j][k - 1], ts[i..j][k]) {
      assert PairWritten(t, ts[i + k - 1], ts[i + k]);
    }
  }

  // ----- trees -----

  lemma {:induction false} ArgsWritten(t: seq<char>, c: Cmd, argv: seq<Word>)
    requires AsWritten(t, c)
    ensures AsWritten(t, SetArgs(c, argv))
  {
    if c.Redir? { ArgsWritten(t, c.cmd, argv); }
  }

  lemma {:induction false} SimpleWritten(t: seq<char>, ts: seq<Token>, c: Cmd)
    requires Simple(ts) == Some(c) && Pairs(t, ts)
    ensures AsWritten(t, c)
    decreases |ts|
  {
    var n := |ts|;
    if n >= 2 && RedirOp(ts[n - 2]).Some? {
      PairsWithin(t, ts, 0, n - 2);
      SimpleWritten(t, ts[..n - 2], Simple(ts[..n - 2]).value);
      assert PairWritten(t, ts[n - 2], ts[n - 1]);
    } else if n > 0 {
      PairsWithin(t, ts, 0, n - 1);
      var d := Simple(ts[..n - 1]).value;
      SimpleWritten(t, ts[..n - 1], d);
      ArgsWritten(t, d, Args(d) + [ts[n - 1].w]);
    }
  }

  lemma {:induction false} BlockWritten(t: seq<char>, ts: seq<Token>, c: Cmd)
    requires IsBlock(ts, c) && Pairs(t, ts)
    ensures AsWritten(t, c)
    decreases |ts|, 0
  {
    var n := |ts|;
    if ts[0] == Sym('(') && ts[n - 1] == Sym(')') && IsLine(ts[1..n - 1], c) {
      PairsWithin(t, ts, 1, n - 1);
      LineWritten(t, ts[1..n - 1], c);
    } else {
      PairsWithin(t, ts, 0, n - 2);
      BlockWritten(t, ts[..n - 2], c.cmd);
      assert PairWritten(t, ts[n - 2], ts[n - 1]);
    }
  }

  lemma {:induction false} PipeWritten(t: seq<char>, ts: seq<Token>, c: Cmd)
    requires IsPipe(ts, c) && Pairs(t, ts)
    ensures AsWritten(t, c)
    decreases |ts|, 2
  {
    if IsBlock(ts, c) {
      BlockWritten(t, ts, c);
    } else if Simple(ts) == Some(c) {
      SimpleWritten(t, ts, c);
    } else {
      var k :| 0 <= k < |ts| && ts[k] == Sym('|') && IsExec(ts[..k], c.left) && IsPipe(ts[k + 1..], c.right);
      PairsWithin(t, ts, 0, k);
      PairsWithin(t, ts, k + 1, |ts|);
      PipeWritten(t, ts[..k], c.left);
      PipeWritten(t, ts[k + 1..], c.right);
    }
  }

  lemma {:induction false} BacksWritten(t: seq<char>, ts: seq<Token>, c: Cmd)
    requires IsBacks(ts, c) && Pairs(t, ts)
    ensures AsWritten(t, c)
    decreases |ts|, 3
  {
    if IsPipe(ts, c) {
      PipeWritten(t, ts, c);
    } else {
      PairsWithin(t, ts, 0, |ts| - 1);
      BacksWritten(t, ts[..|ts| - 1], c.cmd);
    }
  }

  lemma {:induction false} LineWritten(t: seq<char>, ts: seq<Token>, c: Cmd)
    requires IsLine(ts, c) && Pairs(t, ts)
    ensures AsWritten(t, c)
    decreases |ts|, 4
  {
    if IsBacks(ts, c) {
      BacksWritten(t, ts, c);
    } else {
      var k :| 0 <= k < |ts| && ts[k] == Sym(';') && IsBacks(ts[..k], c.left) && IsLine(ts[k + 1..], c.right);
      PairsWithin(t, ts, 0, k);
      PairsWithin(t, ts, k + 1, |ts|);
      BacksWritten(t, ts[..k], c.left);
      LineWritten(t, ts[k + 1..], c.right);
    }
  }

  /** A tree of a line opens every file as the signs before its name say. */
  lemma RedirectsAsWritten(t: seq<char>, c: Cmd)
    requires Line(t) && IsLine(Lex(t, 0), c)
    ensures AsWritten(t, c)
  {
    LexPairs(t, 0);
    LineWritten(t, Lex(t, 0), c);
  }
}
