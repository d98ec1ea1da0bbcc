/**
 Recursive descent on tokens, and that it decides the grammar: it accepts exactly
 the lines that stand for some tree with few enough arguments, and finds that tree.
 */
module ShellDescent {
  import opened Common
  import opened ShellText
  import opened ShellGrammar

  const MAXARGS: nat := 10

  datatype Parse = Fail | Got(c: Cmd, rest: seq<Token>)

  predicate Head(ts: seq<Token>, c: char) {
    ts != [] && ts[0] == Sym(c)
  }

  // peek(ps, es, "|)&;")
  predicate Stops(tok: Token) {
    tok == Sym('|') || tok == Sym(')') || tok == Sym('&') || tok == Sym(';')
  }

  function RedirsF(c: Cmd, ts: seq<Token>): (p: Parse)
    ensures p.Got? ==> |p.rest| <= |ts|
    decreases |ts|
  {
    if ts == [] || RedirOp(ts[0]).None? then Got(c, ts)
    else if |ts| >= 2 && ts[1].Text? then RedirsF(Redir(c, ts[1].w, RedirOp(ts[0]).value), ts[2..])
    else Fail
  }

  // Arguments and redirections up to a token that stops them.
  function SimpleF(c: Cmd, ts: seq<Token>): (p: Parse)
    ensures p.Got? ==> |p.rest| <= |ts|
    decreases |ts|
  {
    if ts == [] then Got(c, ts)
    else if RedirOp(ts[0]).Some? then
      if |ts| >= 2 && ts[1].Text? then SimpleF(Redir(c, ts[1].w, RedirOp(ts[0]).value), ts[2..]) else Fail
    else if Stops(ts[0]) then Got(c, ts)
    else if ts[0].Text? && |Args(c)| + 1 < MAXARGS then SimpleF(SetArgs(c, Args(c) + [ts[0].w]), ts[1..])
    else Fail
  }

  function BlockF(ts: seq<Token>): (p: Parse)
    requires ts != []
    ensures p.Got? ==> |p.rest| <= |ts|
    decreases |ts|, 0
  {
    var p := LineF(ts[1..]);
    if p.Got? && Head(p.rest, ')') then RedirsF(p.c, p.rest[1..]) else Fail
  }

  function ExecF(ts: seq<Token>): (p: Parse)
    ensures p.Got? ==> |p.rest| <= |ts|
    decreases |ts|, 1
  {
    if Head(ts, '(') then BlockF(ts) else SimpleF(Exec([]), ts)
  }

  function PipeF(ts: seq<Token>): (p: Parse)
    ensures p.Got? ==> |p.rest| <= |ts|
    decreases |ts|, 2
  {
    var l := ExecF(ts);
    if l.Fail? || !Head(l.rest, '|') then l
    else var r := PipeF(l.rest[1..]); if r.Fail? then Fail else Got(Pipe(l.c, r.c), r.rest)
  }

  function BacksF(c: Cmd, ts: seq<Token>): (p: Parse)
    ensures p.Got? && |p.rest| <= |ts| && !Head(p.rest, '&')
    decreases |ts|
  {
    if Head(ts, '&') then BacksF(Back(c), ts[1..]) else Got(c, ts)
  }

  function LineF(ts: seq<Token>): (p: Parse)
    ensures p.Got? ==> |p.rest| <= |ts|
    decreases |ts|, 3
  {
    var l := PipeF(ts);
    if l.Fail? then Fail
    else var b := BacksF(l.c, l.rest);
      if !Head(b.rest, ';') then b
      else var r := LineF(b.rest[1..]); if r.Fail? then Fail else Got(List(b.c, r.c), r.rest)
  }

  // Every simple command has fewer than MAXARGS arguments.
  predicate Few(c: Cmd) {
    match c
    case Exec(argv) => |argv| < MAXARGS
    case Redir(d, _, _) => Few(d)
    case Pipe(l, r) => Few(l) && Few(r)
    case List(l, r) => Few(l) && Few(r)
    case Back(d) => Few(d)
  }

  // ----- soundness: what is consumed stands for what is returned -----

  // `p` has left `rest` of `ts`, and the tokens before it are `a`.
  ghost predicate Consumed(ts: seq<Token>, p: Parse, a: seq<Token>) {
    p.Got? && ts == a + p.rest
  }

  lemma {:induction false} RedirsSound(c: Cmd, ts: seq<Token>) returns (a: seq<Token>)
    requires RedirsF(c, ts).Got?
    ensures Consumed(ts, RedirsF(c, ts), a) && Wrap(c, a) == Some(RedirsF(c, ts).c)
    decreases |ts|
  {
    if ts == [] || RedirOp(ts[0]).None? {
      a := [];
    } else {
      var b := RedirsSound(Redir(c, ts[1].w, RedirOp(ts[0]).value), ts[2..]);
      a := ts[..2] + b;
      Front([], ts, 2, b, RedirsF(c, ts).rest);
      WrapFront(c, ts[0], ts[1], b);
      assert ts[..2] == [ts[0], ts[1]];
    }
  }

  // A redirection in front is innermost.
  lemma {:induction false} WrapFront(c: Cmd, op: Token, w: Token, b: seq<Token>)
    requires RedirOp(op).Some? && w.Text?
    ensures Wrap(c, [op, w] + b) == Wrap(Redir(c, w.w, RedirOp(op).value), b)
    decreases |b|
  {
    var all, n := [op, w] + b, |b|;
    if n == 0 {
      assert all == [op, w] && all[..0] == [];
    } else if n >= 2 {
      WrapFront(c, op, w, b[..n - 2]);
      assert all[..n] == [op, w] + b[..n - 2];
    } else {
      assert all[1] == w;
    }
  }

  lemma {:induction false} SimpleSound(c0: Cmd, p: seq<Token>, ts: seq<Token>) returns (a: seq<Token>)
    requires Simple(p) == Some(c0) && |Args(c0)| < MAXARGS && SimpleF(c0, ts).Got?
    ensures Consumed(ts, SimpleF(c0, ts), a) && Simple(p + a) == Some(SimpleF(c0, ts).c)
    ensures |Args(SimpleF(c0, ts).c)| < MAXARGS
    decreases |ts|
  {
    if ts == [] || (RedirOp(ts[0]).None? && Stops(ts[0])) {
      a := [];
      assert p + a == p;
    } else if RedirOp(ts[0]).Some? {
      SimpleRedir(p, c0, ts[..2]);
      var b := SimpleSound(Redir(c0, ts[1].w, RedirOp(ts[0]).value), p + ts[..2], ts[2..]);
      a := ts[..2] + b;
      Front(p, ts, 2, b, SimpleF(c0, ts).rest);
    } else {
      ArgNext(p, c0, ts[..1]);
      var b := SimpleSound(SetArgs(c0, Args(c0) + [ts[0].w]), p + ts[..1], ts[1..]);
      a := ts[..1] + b;
      Front(p, ts, 1, b, SimpleF(c0, ts).rest);
    }
  }

  lemma Front(p: seq<Token>, ts: seq<Token>, k: nat, b: seq<Token>, rest: seq<Token>)
    requires k <= |ts| && ts[k..] == b + rest
    ensures ts == (ts[..k] + b) + rest && (p + ts[..k]) + b == p + (ts[..k] + b)
  {
    assert ts == ts[..k] + ts[k..];
  }

  lemma SimpleRedir(p: seq<Token>, c: Cmd, two: seq<Token>)
    requires Simple(p) == Some(c) && |two| == 2 && RedirOp(two[0]).Some? && two[1].Text?
    ensures Simple(p + two) == Some(Redir(c, two[1].w, RedirOp(two[0]).value))
  {
    assert (p + two)[..|p|] == p;
  }

  lemma ArgNext(p: seq<Token>, c: Cmd, one: seq<Token>)
    requires Simple(p) == Some(c) && |one| == 1 && one[0].Text?
    ensures var d := SetArgs(c, Args(c) + [one[0].w]); Simple(p + one) == Some(d) && Args(d) == Args(c) + [one[0].w]
  {
    assert one == [Text(one[0].w)];
    SimpleArg(p, c, one[0].w);
    SimpleIsExec(p, c);
    ArgAdded(c, Args(c), one[0].w);
    ArgsOf(SetArgs(c, Args(c) + [one[0].w]), Args(c) + [one[0].w]);
  }

  lemma {:induction false} FewArgs(c: Cmd, argv: seq<Word>)
    requires ExecWith(c, argv)
    ensures Few(c) <==> |argv| < MAXARGS
  {
    if c.Redir? { FewArgs(c.cmd, argv); }
  }

  lemma {:induction false} WrapFew(c: Cmd, a: seq<Token>)
    requires Wrap(c, a).Some?
    ensures Few(Wrap(c, a).value) <==> Few(c)
    decreases |a|
  {
    if a != [] { WrapFew(c, a[..|a| - 2]); }
  }

  lemma {:induction false} ExecSound(ts: seq<Token>) returns (a: seq<Token>)
    requires ExecF(ts).Got?
    ensures Consumed(ts, ExecF(ts), a) && IsExec(a, ExecF(ts).c) && Few(ExecF(ts).c)
    decreases |ts|, 1
  {
    if Head(ts, '(') {
      a := BlockSound(ts);
    } else {
      a := SimpleSound(Exec([]), [], ts);
      assert [] + a == a;
      var c := ExecF(ts).c;
      SimpleIsExec(a, c);
      FewArgs(c, Args(c));
    }
  }

  lemma {:induction false} BlockSound(ts: seq<Token>) returns (a: seq<Token>)
    requires Head(ts, '(') && BlockF(ts).Got?
    ensures Consumed(ts, BlockF(ts), a) && IsBlock(a, BlockF(ts).c) && Few(BlockF(ts).c)
    decreases |ts|, 0
  {
    var p := LineF(ts[1..]);
    var inner := LineSound(ts[1..]);
    var more := RedirsSound(p.c, p.rest[1..]);
    BlockOf(inner, p.c);
    var block := [Sym('(')] + inner + [Sym(')')];
    WrapBlock(block, p.c, more);
    WrapFew(p.c, more);
    a := block + more;
    BlockGlue(ts, inner, p.rest, more, BlockF(ts).rest);
  }

  lemma BlockGlue(ts: seq<Token>, inner: seq<Token>, mid: seq<Token>, more: seq<Token>, rest: seq<Token>)
    requires Head(ts, '(') && ts[1..] == inner + mid && Head(mid, ')') && mid[1..] == more + rest
    ensures ts == ([Sym('(')] + inner + [Sym(')')] + more) + rest
  {
    assert ts == [Sym('(')] + ts[1..] && mid == [Sym(')')] + mid[1..];
  }

  lemma Glue(ts: seq<Token>, a: seq<Token>, mid: seq<Token>, x: char, b: seq<Token>, rest: seq<Token>)
    requires ts == a + mid && Head(mid, x) && mid[1..] == b + rest
    ensures ts == (a + [Sym(x)] + b) + rest
  {
    assert mid == [Sym(x)] + mid[1..];
  }

  lemma GlueTwo(ts: seq<Token>, a: seq<Token>, mid: seq<Token>, b: seq<Token>, rest: seq<Token>)
    requires ts == a + mid && mid == b + rest
    ensures ts == (a + b) + rest
  {
  }

  lemma {:induction false} PipeSound(ts: seq<Token>) returns (a: seq<Token>)
    requires PipeF(ts).Got?
    ensures Consumed(ts, PipeF(ts), a) && IsPipe(a, PipeF(ts).c) && Few(PipeF(ts).c)
    decreases |ts|, 2
  {
    var l := ExecF(ts);
    a := ExecSound(ts);
    if Head(l.rest, '|') {
      var r := PipeF(l.rest[1..]);
      var b := PipeSound(l.rest[1..]);
      PipeOf(a, l.c, b, r.c);
      Glue(ts, a, l.rest, '|', b, r.rest);
      a := a + [Sym('|')] + b;
    }
  }

  lemma {:induction false} BacksSound(p: seq<Token>, c: Cmd, ts: seq<Token>) returns (a: seq<Token>)
    requires IsBacks(p, c) && Few(c)
    ensures Consumed(ts, BacksF(c, ts), a) && IsBacks(p + a, BacksF(c, ts).c) && Few(BacksF(c, ts).c)
    decreases |ts|
  {
    if Head(ts, '&') {
      BackOf(p, c);
      var b := BacksSound(p + [Sym('&')], Back(c), ts[1..]);
      a := [Sym('&')] + b;
      assert (p + [Sym('&')]) + b == p + a && ts == [Sym('&')] + ts[1..];
    } else {
      a := [];
      assert p + a == p;
    }
  }

  lemma {:induction false} LineSound(ts: seq<Token>) returns (a: seq<Token>)
    requires LineF(ts).Got?
    ensures Consumed(ts, LineF(ts), a) && IsLine(a, LineF(ts).c) && Few(LineF(ts).c)
    decreases |ts|, 3
  {
    var l := PipeF(ts);
    var p := PipeSound(ts);
    var b := BacksF(l.c, l.rest);
    var amps := BacksSound(p, l.c, l.rest);
    a := p + amps;
    GlueTwo(ts, p, l.rest, amps, b.rest);
    if Head(b.rest, ';') {
      var r := LineF(b.rest[1..]);
      var rest := LineSound(b.rest[1..]);
      ListOf(a, b.c, rest, r.c);
      Glue(ts, a, b.rest, ';', rest, r.rest);
      a := a + [Sym(';')] + rest;
    }
  }
}
