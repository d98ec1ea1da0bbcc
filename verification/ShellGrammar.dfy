/**
 A reference for sh.c's parser: the tokens of a line, and which command trees a
 sequence of tokens stands for.
 */
module ShellGrammar {
  import opened Common
  import opened ShellText

  // ----- tokens -----

  datatype Token = Sym(c: char) | Shift | Text(w: Word)

  // The line ends at its first NUL, at position |t| - 1.
  ghost predicate Line(t: seq<char>) {
    |t| > 0 && t[|t| - 1] == NUL && forall x :: 0 <= x < |t| - 1 ==> t[x] != NUL
  }

  ghost function SkipSpaces(t: seq<char>, a: nat): (b: nat)
    requires Line(t) && a < |t|
    ensures a <= b < |t| && !Space(t[b]) && forall x :: a <= x < b ==> Space(t[x])
    decreases |t| - a
  {
    if Space(t[a]) then SkipSpaces(t, a + 1) else a
  }

  ghost function WordEnd(t: seq<char>, a: nat): (b: nat)
    requires Line(t) && a < |t|
    ensures a <= b < |t| && !Plain(t[b]) && forall x :: a <= x < b ==> Plain(t[x])
    decreases |t| - a
  {
    if Plain(t[a]) then WordEnd(t, a + 1) else a
  }

  // The token that starts at `p`, and where it ends.
  ghost function TokenAt(t: seq<char>, p: nat): (r: (Token, nat))
    requires Line(t) && p < |t| && !Space(t[p]) && t[p] != NUL
    ensures p < r.1 < |t|
  {
    if Plain(t[p]) then (Text(Word(p, WordEnd(t, p))), WordEnd(t, p))
    else if t[p] == '>' && t[p + 1] == '>' then (Shift, p + 2)
    else (Sym(t[p]), p + 1)
  }

  // The tokens from position `a` on.
  ghost function Lex(t: seq<char>, a: nat): (ts: seq<Token>)
    requires Line(t) && a < |t|
    decreases |t| - a
  {
    var p := SkipSpaces(t, a);
    if t[p] == NUL then [] else [TokenAt(t, p).0] + Lex(t, TokenAt(t, p).1)
  }

  lemma {:induction false} LexSkips(t: seq<char>, a: nat, b: nat)
    requires Line(t) && a <= b < |t| && forall x :: a <= x < b ==> Space(t[x])
    ensures SkipSpaces(t, a) == SkipSpaces(t, b) && Lex(t, a) == Lex(t, b)
    decreases b - a
  {
    if a < b { LexSkips(t, a + 1, b); }
  }

  function OwnWord(tok: Token): seq<Word> {
    if tok.Text? then [tok.w] else []
  }

  function TextWords(ts: seq<Token>): seq<Word> {
    if ts == [] then [] else OwnWord(ts[0]) + TextWords(ts[1..])
  }

  lemma TextWordsCons(tok: Token, ts: seq<Token>)
    ensures TextWords([tok] + ts) == OwnWord(tok) + TextWords(ts)
  {
    assert ([tok] + ts)[1..] == ts;
  }

  lemma {:induction false} TextWordsJoin(a: seq<Token>, b: seq<Token>)
    ensures TextWords(a + b) == TextWords(a) + TextWords(b)
  {
    if a == [] {
      assert a + b == b;
    } else {
      var x, rest := a[0], a[1..];
      calc {
        TextWords(a + b);
        { assert a + b == [x] + (rest + b); }
        TextWords([x] + (rest + b));
        { TextWordsCons(x, rest + b); }
        OwnWord(x) + TextWords(rest + b);
        { TextWordsJoin(rest, b); }
        OwnWord(x) + (TextWords(rest) + TextWords(b));
        (OwnWord(x) + TextWords(rest)) + TextWords(b);
        { TextWordsCons(x, rest); assert a == [x] + rest; }
        TextWords(a) + TextWords(b);
      }
    }
  }

  /** The text tokens are exactly the words of the line, in order. */
  lemma {:induction false} LexSpans(t: seq<char>, a: nat)
    requires Line(t) && a < |t|
    ensures Spans(t, a, |t| - 1, TextWords(Lex(t, a)))
    decreases |t| - a
  {
    var p := SkipSpaces(t, a);
    if t[p] == NUL {
      SpansNone(t, a, |t| - 1);
    } else {
      var (tok, e) := TokenAt(t, p);
      LexSpans(t, e);
      if tok.Text? { SpansOne(t, a, e, tok.w); } else { SpansNone(t, a, e); }
      SpansJoin(t, a, e, |t| - 1, OwnWord(tok), TextWords(Lex(t, e)));
      assert Lex(t, a)[1..] == Lex(t, e);
    }
  }

  // ----- grammar -----

  function RedirOp(tok: Token): Option<Mode> {
    match tok
    case Shift => Some(Append)
    case Sym(c) => if c == '<' then Some(Mode.Read) else if c == '>' then Some(Truncate) else None
    case Text(_) => None
  }

  // `c` with the redirections `ts` around it, the last outermost.
  function Wrap(c: Cmd, ts: seq<Token>): Option<Cmd> {
    if ts == [] then Some(c)
    else if |ts| >= 2 && ts[|ts| - 1].Text? && RedirOp(ts[|ts| - 2]).Some? && Wrap(c, ts[..|ts| - 2]).Some?
    then Some(Redir(Wrap(c, ts[..|ts| - 2]).value, ts[|ts| - 1].w, RedirOp(ts[|ts| - 2]).value))
    else None
  }

  function Args(c: Cmd): seq<Word> {
    match c
    case Exec(argv) => argv
    case Redir(d, _, _) => Args(d)
    case _ => []
  }

  // Arguments and redirections in any order.
  function Simple(ts: seq<Token>): Option<Cmd> {
    var n := |ts|;
    if n == 0 then Some(Exec([]))
    else if !ts[n - 1].Text? then None
    else if n >= 2 && RedirOp(ts[n - 2]).Some? then
      if Simple(ts[..n - 2]).Some? then Some(Redir(Simple(ts[..n - 2]).value, ts[n - 1].w, RedirOp(ts[n - 2]).value))
      else None
    else if Simple(ts[..n - 1]).Some? then
      Some(SetArgs(Simple(ts[..n - 1]).value, Args(Simple(ts[..n - 1]).value) + [ts[n - 1].w]))
    else None
  }

  ghost predicate IsBlock(ts: seq<Token>, c: Cmd)
    decreases |ts|, 0
  {
    var n := |ts|;
    && n >= 2
    && (|| (ts[0] == Sym('(') && ts[n - 1] == Sym(')') && IsLine(ts[1..n - 1], c))
        || (c.Redir? && ts[n - 1] == Text(c.file) && RedirOp(ts[n - 2]) == Some(c.mode) && IsBlock(ts[..n - 2], c.cmd)))
  }

  ghost predicate IsExec(ts: seq<Token>, c: Cmd)
    decreases |ts|, 1
  {
    IsBlock(ts, c) || Simple(ts) == Some(c)
  }

  ghost predicate IsPipe(ts: seq<Token>, c: Cmd)
    decreases |ts|, 2
  {
    || IsExec(ts, c)
    || (c.Pipe? && exists k ::
          0 <= k < |ts| && ts[k] == Sym('|') && IsExec(ts[..k], c.left) && IsPipe(ts[k + 1..], c.right))
  }

  ghost predicate IsBacks(ts: seq<Token>, c: Cmd)
    decreases |ts|, 3
  {
    || IsPipe(ts, c)
    || (c.Back? && |ts| > 0 && ts[|ts| - 1] == Sym('&') && IsBacks(ts[..|ts| - 1], c.cmd))
  }

  ghost predicate IsLine(ts: seq<Token>, c: Cmd)
    decreases |ts|, 4
  {
    || IsBacks(ts, c)
    || (c.List? && exists k ::
          0 <= k < |ts| && ts[k] == Sym(';') && IsBacks(ts[..k], c.left) && IsLine(ts[k + 1..], c.right))
  }

  // ----- putting derivations together -----

  lemma {:induction false} WrapBlock(a: seq<Token>, c: Cmd, ts: seq<Token>)
    requires IsBlock(a, c) && Wrap(c, ts).Some?
    ensures IsBlock(a + ts, Wrap(c, ts).value)
    decreases |ts|
  {
    if ts == [] {
      assert a + ts == a;
    } else {
      WrapBlock(a, c, ts[..|ts| - 2]);
      assert (a + ts)[..|a + ts| - 2] == a + ts[..|ts| - 2];
    }
  }

  lemma SimpleArg(a: seq<Token>, c: Cmd, w: Word)
    requires Simple(a) == Some(c)
    ensures Simple(a + [Text(w)]) == Some(SetArgs(c, Args(c) + [w]))
  {
    assert (a + [Text(w)])[..|a|] == a;
  }

  lemma PipeOf(a: seq<Token>, l: Cmd, b: seq<Token>, r: Cmd)
    requires IsExec(a, l) && IsPipe(b, r)
    ensures IsPipe(a + [Sym('|')] + b, Pipe(l, r))
  {
    var ts := a + [Sym('|')] + b;
    assert ts[..|a|] == a && ts[|a| + 1..] == b && ts[|a|] == Sym('|');
  }

  lemma ListOf(a: seq<Token>, l: Cmd, b: seq<Token>, r: Cmd)
    requires IsBacks(a, l) && IsLine(b, r)
    ensures IsLine(a + [Sym(';')] + b, List(l, r))
  {
    var ts := a + [Sym(';')] + b;
    assert ts[..|a|] == a && ts[|a| + 1..] == b && ts[|a|] == Sym(';');
  }

  lemma BackOf(a: seq<Token>, c: Cmd)
    requires IsBacks(a, c)
    ensures IsBacks(a + [Sym('&')], Back(c))
  {
    assert (a + [Sym('&')])[..|a|] == a;
  }

  lemma BlockOf(a: seq<Token>, c: Cmd)
    requires IsLine(a, c)
    ensures IsBlock([Sym('(')] + a + [Sym(')')], c)
  {
    var ts := [Sym('(')] + a + [Sym(')')];
    assert ts[1..|ts| - 1] == a;
  }

  // ----- no word is lost or made up -----

  // The words of a tree and those of its tokens, counted.
  ghost predicate SameWords(ts: seq<Token>, c: Cmd) {
    multiset(Words(c)) == multiset(TextWords(ts))
  }

  lemma SplitWords(a: seq<Token>, tok: Token, b: seq<Token>)
    requires !tok.Text?
    ensures TextWords(a + [tok] + b) == TextWords(a) + TextWords(b)
  {
    TextWordsJoin(a + [tok], b);
    TextWordsJoin(a, [tok]);
    NoText(tok);
    assert TextWords(a) + [] == TextWords(a);
  }

  lemma NoText(tok: Token)
    requires !tok.Text?
    ensures TextWords([tok]) == []
  {
    assert [tok][1..] == [];
  }

  // Two parts around a symbol.
  lemma PartWords(ts: seq<Token>, k: nat, l: Cmd, r: Cmd, c: Cmd)
    requires k < |ts| && !ts[k].Text? && SameWords(ts[..k], l) && SameWords(ts[k + 1..], r)
    requires Words(c) == Words(l) + Words(r)
    ensures SameWords(ts, c)
  {
    PartText(ts, k);
  }

  lemma PartText(ts: seq<Token>, k: nat)
    requires k < |ts| && !ts[k].Text?
    ensures TextWords(ts) == TextWords(ts[..k]) + TextWords(ts[k + 1..])
  {
    var a, tok, b := ts[..k], ts[k], ts[k + 1..];
    SplitWords(a, tok, b);
    assert ts == a + [tok] + b;
  }

  lemma ParenText(ts: seq<Token>)
    requires |ts| >= 2 && !ts[0].Text? && !ts[|ts| - 1].Text?
    ensures TextWords(ts) == TextWords(ts[1..|ts| - 1])
  {
    var n, rest := |ts|, ts[1..];
    PartText(ts, 0);
    PartText(rest, n - 2);
    assert ts[..0] == [] && rest[n - 1..] == [] && rest[..n - 2] == ts[1..n - 1];
  }

  lemma ArgWords(ts: seq<Token>, d: Cmd)
    requires |ts| > 0 && ts[|ts| - 1].Text? && SameWords(ts[..|ts| - 1], d) && ExecWith(d, Args(d))
    ensures SameWords(ts, SetArgs(d, Args(d) + [ts[|ts| - 1].w]))
  {
    var n := |ts|;
    ArgAdded(d, Args(d), ts[n - 1].w);
    LastWord(ts[..n - 1], ts[n - 1].w);
    assert ts == ts[..n - 1] + [ts[n - 1]];
  }

  lemma LastWord(a: seq<Token>, w: Word)
    ensures TextWords(a + [Text(w)]) == TextWords(a) + [w]
  {
    TextWordsJoin(a, [Text(w)]);
    assert TextWords([Text(w)]) == [w];
  }

  lemma {:induction false} SimpleIsExec(ts: seq<Token>, c: Cmd)
    requires Simple(ts) == Some(c)
    ensures ExecWith(c, Args(c))
    decreases |ts|
  {
    var n := |ts|;
    if n >= 2 && RedirOp(ts[n - 2]).Some? {
      SimpleIsExec(ts[..n - 2], Simple(ts[..n - 2]).value);
    } else if n > 0 {
      var d := Simple(ts[..n - 1]).value;
      SimpleIsExec(ts[..n - 1], d);
      ArgAdded(d, Args(d), ts[n - 1].w);
      ArgsOf(c, Args(d) + [ts[n - 1].w]);
    }
  }

  lemma {:induction false} ArgsOf(c: Cmd, argv: seq<Word>)
    requires ExecWith(c, argv)
    ensures Args(c) == argv
  {
    if c.Redir? { ArgsOf(c.cmd, argv); }
  }

  lemma {:induction false} SimpleWords(ts: seq<Token>, c: Cmd)
    requires Simple(ts) == Some(c)
    ensures SameWords(ts, c)
    decreases |ts|
  {
    var n := |ts|;
    if n >= 2 && RedirOp(ts[n - 2]).Some? {
      SimpleWords(ts[..n - 2], Simple(ts[..n - 2]).value);
      RedirWords(ts, c);
    } else if n > 0 {
      var d := Simple(ts[..n - 1]).value;
      SimpleWords(ts[..n - 1], d);
      SimpleIsExec(ts[..n - 1], d);
      ArgWords(ts, d);
    }
  }

  lemma RedirWords(ts: seq<Token>, c: Cmd)
    requires |ts| >= 2 && c.Redir? && ts[|ts| - 1] == Text(c.file) && RedirOp(ts[|ts| - 2]).Some?
    requires SameWords(ts[..|ts| - 2], c.cmd)
    ensures SameWords(ts, c)
  {
    var n := |ts|;
    SplitWords(ts[..n - 2], ts[n - 2], []);
    LastWord(ts[..n - 2] + [ts[n - 2]], c.file);
    assert ts[..n - 2] + [ts[n - 2]] + [] == ts[..n - 2] + [ts[n - 2]];
    assert ts == ts[..n - 2] + [ts[n - 2]] + [ts[n - 1]];
  }

  lemma {:induction false} BlockWords(ts: seq<Token>, c: Cmd)
    requires IsBlock(ts, c)
    ensures SameWords(ts, c)
    decreases |ts|, 0
  {
    var n := |ts|;
    if ts[0] == Sym('(') && ts[n - 1] == Sym(')') && IsLine(ts[1..n - 1], c) {
      LineWords(ts[1..n - 1], c);
      ParenText(ts);
    } else {
      BlockWords(ts[..n - 2], c.cmd);
      RedirWords(ts, c);
    }
  }

  lemma {:induction false} PipeWords(ts: seq<Token>, c: Cmd)
    requires IsPipe(ts, c)
    ensures SameWords(ts, c)
    decreases |ts|, 2
  {
    if IsBlock(ts, c) {
      BlockWords(ts, c);
    } else if Simple(ts) == Some(c) {
      SimpleWords(ts, c);
    } else {
      var k :| 0 <= k < |ts| && ts[k] == Sym('|') && IsExec(ts[..k], c.left) && IsPipe(ts[k + 1..], c.right);
      PipeWords(ts[..k], c.left);
      PipeWords(ts[k + 1..], c.right);
      PartWords(ts, k, c.left, c.right, c);
    }
  }

  lemma {:induction false} BacksWords(ts: seq<Token>, c: Cmd)
    requires IsBacks(ts, c)
    ensures SameWords(ts, c)
    decreases |ts|, 3
  {
    if IsPipe(ts, c) {
      PipeWords(ts, c);
    } else {
      var n := |ts|;
      BacksWords(ts[..n - 1], c.cmd);
      PartText(ts, n - 1);
    }
  }

  /** A tree that a sequence of tokens stands for has exactly its words, each once. */
  lemma {:induction false} LineWords(ts: seq<Token>, c: Cmd)
    requires IsLine(ts, c)
    ensures SameWords(ts, c)
    decreases |ts|, 4
  {
    if IsBacks(ts, c) {
      BacksWords(ts, c);
    } else {
      var k :| 0 <= k < |ts| && ts[k] == Sym(';') && IsBacks(ts[..k], c.left) && IsLine(ts[k + 1..], c.right);
      BacksWords(ts[..k], c.left);
      LineWords(ts[k + 1..], c.right);
      PartWords(ts, k, c.left, c.right, c);
    }
  }
}
