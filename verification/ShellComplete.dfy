/** Recursive descent finds every tree the grammar gives a line, so there is at most one. */
module ShellComplete {
  import opened Common
  import opened ShellText
  import opened ShellGrammar
  import opened ShellDescent

  // What may follow a simple command, a pipeline or a line.
  predicate AfterExec(r: seq<Token>) {
    r == [] || Stops(r[0])
  }

  predicate AfterPipe(r: seq<Token>) {
    r == [] || r[0] == Sym(')') || r[0] == Sym('&') || r[0] == Sym(';')
  }

  predicate AfterLine(r: seq<Token>) {
    r == [] || r[0] == Sym(')')
  }

  // ----- redirections -----

  lemma {:induction false} WrapShape(c: Cmd, a: seq<Token>)
    requires Wrap(c, a).Some? && a != []
    ensures |a| >= 2 && RedirOp(a[0]).Some? && a[1].Text?
    decreases |a|
  {
    if |a| > 2 { WrapShape(c, a[..|a| - 2]); }
  }

  lemma {:induction false} RedirsComplete(c: Cmd, a: seq<Token>, r: seq<Token>)
    requires Wrap(c, a).Some? && (r == [] || RedirOp(r[0]).None?)
    ensures RedirsF(c, a + r) == Got(Wrap(c, a).value, r)
    decreases |a|
  {
    if a == [] {
      assert a + r == r;
    } else {
      WrapShape(c, a);
      var d := Redir(c, a[1].w, RedirOp(a[0]).value);
      WrapFront(c, a[0], a[1], a[2..]);
      assert a == [a[0], a[1]] + a[2..];
      RedirsComplete(d, a[2..], r);
      assert (a + r)[2..] == a[2..] + r;
    }
  }

  // ----- simple commands -----

  predicate InSimple(x: seq<Token>, i: nat)
    requires i < |x|
  {
    x[i].Text? || (RedirOp(x[i]).Some? && i + 1 < |x| && x[i + 1].Text?)
  }

  lemma {:induction false} SimpleShape(x: seq<Token>, i: nat)
    requires Simple(x).Some? && i < |x|
    ensures InSimple(x, i)
    decreases |x|
  {
    var n := |x|;
    if n >= 2 && RedirOp(x[n - 2]).Some? {
      if i < n - 2 {
        SimpleShape(x[..n - 2], i);
        assert InSimple(x[..n - 2], i);
      }
    } else if i < n - 1 {
      SimpleShape(x[..n - 1], i);
      assert InSimple(x[..n - 1], i);
    }
  }

  // What the next tokens of a simple command are.
  lemma NextInSimple(p: seq<Token>, a: seq<Token>)
    requires Simple(p + a).Some? && a != []
    ensures a[0].Text? || (RedirOp(a[0]).Some? && |a| >= 2 && a[1].Text?)
  {
    SimpleShape(p + a, |p|);
    assert (p + a)[|p|] == a[0];
    if !a[0].Text? { assert (p + a)[|p| + 1] == a[1]; }
  }

  lemma NothingLeft(c: Cmd, r: seq<Token>)
    requires AfterExec(r)
    ensures SimpleF(c, r) == Got(c, r)
  {
  }

  lemma ArgParsed(c: Cmd, a: seq<Token>, r: seq<Token>)
    requires a != [] && a[0].Text? && |Args(c)| + 1 < MAXARGS
    ensures SimpleF(c, a + r) == SimpleF(SetArgs(c, Args(c) + [a[0].w]), a[1..] + r)
  {
    assert (a + r)[1..] == a[1..] + r;
  }

  lemma RedirParsed(c: Cmd, a: seq<Token>, r: seq<Token>)
    requires |a| >= 2 && RedirOp(a[0]).Some? && a[1].Text?
    ensures SimpleF(c, a + r) == SimpleF(Redir(c, a[1].w, RedirOp(a[0]).value), a[2..] + r)
  {
    assert (a + r)[2..] == a[2..] + r;
  }

  lemma {:induction false} SimpleComplete(p: seq<Token>, c0: Cmd, a: seq<Token>, c: Cmd, r: seq<Token>)
    requires Simple(p) == Some(c0) && Simple(p + a) == Some(c) && |Args(c)| < MAXARGS && AfterExec(r)
    ensures SimpleF(c0, a + r) == Got(c, r) && |Args(c0)| <= |Args(c)|
    decreases |a|
  {
    if a == [] {
      assert p + a == p;
      assert a + r == r;
      NothingLeft(c0, r);
    } else {
      NextInSimple(p, a);
      if a[0].Text? {
        Cut(p, a, 1);
        ArgNext(p, c0, a[..1]);
        SimpleComplete(p + a[..1], SetArgs(c0, Args(c0) + [a[0].w]), a[1..], c, r);
        ArgParsed(c0, a, r);
      } else {
        Cut(p, a, 2);
        SimpleRedir(p, c0, a[..2]);
        SimpleComplete(p + a[..2], Redir(c0, a[1].w, RedirOp(a[0]).value), a[2..], c, r);
        RedirParsed(c0, a, r);
      }
    }
  }

  lemma Cut(p: seq<Token>, a: seq<Token>, k: nat)
    requires k <= |a|
    ensures (p + a[..k]) + a[k..] == p + a
  {
  }

  // ----- blocks -----

  // A block is a line in parentheses and redirections.
  lemma {:induction false} BlockParts(a: seq<Token>, c: Cmd) returns (n: nat, d: Cmd)
    requires IsBlock(a, c)
    ensures 0 < n < |a| && a[0] == Sym('(') && a[n] == Sym(')') && IsLine(a[1..n], d) && Wrap(d, a[n + 1..]) == Some(c)
    decreases |a|
  {
    var m := |a|;
    if a[0] == Sym('(') && a[m - 1] == Sym(')') && IsLine(a[1..m - 1], c) {
      n, d := m - 1, c;
      assert a[n + 1..] == [];
    } else {
      var b := a[..m - 2];
      n, d := BlockParts(b, c.cmd);
      assert b[1..n] == a[1..n] && a[n + 1..][..|a[n + 1..]| - 2] == b[n + 1..];
    }
  }

  lemma {:induction false} BlockComplete(a: seq<Token>, c: Cmd, r: seq<Token>)
    requires IsBlock(a, c) && Few(c) && AfterExec(r)
    ensures Head(a + r, '(') && BlockF(a + r) == Got(c, r)
    decreases |a|, 0
  {
    var n, d := BlockParts(a, c);
    var inner, more := a[1..n], a[n + 1..];
    WrapFew(d, more);
    var tail := [Sym(')')] + (more + r);
    LineComplete(inner, d, tail);
    assert (a + r)[1..] == inner + tail;
    assert tail[1..] == more + r;
    RedirsComplete(d, more, r);
  }

  // ----- execs, pipelines, lines -----

  lemma {:induction false} ExecComplete(a: seq<Token>, c: Cmd, r: seq<Token>)
    requires IsExec(a, c) && Few(c) && AfterExec(r)
    ensures ExecF(a + r) == Got(c, r)
    decreases |a|, 1
  {
    if IsBlock(a, c) {
      BlockComplete(a, c, r);
    } else {
      SimpleIsExec(a, c);
      FewArgs(c, Args(c));
      assert [] + a == a;
      SimpleComplete([], Exec([]), a, c, r);
      if a != [] { SimpleShape(a, 0); }
    }
  }

  lemma {:induction false} PipeComplete(a: seq<Token>, c: Cmd, r: seq<Token>)
    requires IsPipe(a, c) && Few(c) && AfterPipe(r)
    ensures PipeF(a + r) == Got(c, r)
    decreases |a|, 2
  {
    if IsExec(a, c) {
      ExecComplete(a, c, r);
    } else {
      var k :| 0 <= k < |a| && a[k] == Sym('|') && IsExec(a[..k], c.left) && IsPipe(a[k + 1..], c.right);
      var mid := [Sym('|')] + (a[k + 1..] + r);
      ExecComplete(a[..k], c.left, mid);
      PipeComplete(a[k + 1..], c.right, r);
      Around(a, k, r);
    }
  }

  lemma Around(a: seq<Token>, k: nat, r: seq<Token>)
    requires k < |a|
    ensures a + r == a[..k] + ([a[k]] + (a[k + 1..] + r)) && ([a[k]] + (a[k + 1..] + r))[1..] == a[k + 1..] + r
  {
    assert a == a[..k] + [a[k]] + a[k + 1..];
  }

  // What parseline has after its loop over '&' does not depend on where the ampersands are counted.
  lemma {:induction false} BacksComplete(a: seq<Token>, c: Cmd, r: seq<Token>)
    requires IsBacks(a, c) && Few(c) && AfterPipe(r)
    ensures PipeF(a + r).Got? && BacksF(PipeF(a + r).c, PipeF(a + r).rest) == BacksF(c, r)
    decreases |a|, 3
  {
    if IsPipe(a, c) {
      PipeComplete(a, c, r);
    } else {
      var n := |a|;
      var amp := [Sym('&')] + r;
      BacksComplete(a[..n - 1], c.cmd, amp);
      assert a + r == a[..n - 1] + amp && amp[1..] == r;
    }
  }

  lemma {:induction false} LineComplete(a: seq<Token>, c: Cmd, r: seq<Token>)
    requires IsLine(a, c) && Few(c) && AfterLine(r)
    ensures LineF(a + r) == Got(c, r)
    decreases |a|, 4
  {
    if IsBacks(a, c) {
      BacksComplete(a, c, r);
    } else {
      var k :| 0 <= k < |a| && a[k] == Sym(';') && IsBacks(a[..k], c.left) && IsLine(a[k + 1..], c.right);
      var mid := [Sym(';')] + (a[k + 1..] + r);
      BacksComplete(a[..k], c.left, mid);
      LineComplete(a[k + 1..], c.right, r);
      Around(a, k, r);
      ListComplete(a[..k] + mid, c.left, mid, c.right, r);
    }
  }

  lemma ListComplete(ts: seq<Token>, left: Cmd, mid: seq<Token>, right: Cmd, r: seq<Token>)
    requires PipeF(ts).Got? && BacksF(PipeF(ts).c, PipeF(ts).rest) == BacksF(left, mid)
    requires Head(mid, ';') && LineF(mid[1..]) == Got(right, r)
    ensures LineF(ts) == Got(List(left, right), r)
  {
  }

  /**
   The grammar is decided: descent accepts a whole line with tree `c` if and only if
   `c` is a tree of the line with few enough arguments, and so there is at most one.
   */
  lemma DescentDecides(ts: seq<Token>, c: Cmd)
    ensures LineF(ts) == Got(c, []) <==> IsLine(ts, c) && Few(c)
  {
    if LineF(ts) == Got(c, []) {
      var a := LineSound(ts);
      assert a + [] == a;
    }
    if IsLine(ts, c) && Few(c) {
      LineComplete(ts, c, []);
      assert ts + [] == ts;
    }
  }
}
