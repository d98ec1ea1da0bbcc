/** parsecmd as a whole: from a line to a tree whose strings are the line's own words. */
module ShellCommand {
  import opened Common
  import opened ShellText
  import opened ShellGrammar
  import opened ShellDescent
  import opened ShellComplete
  import opened ShellParser
  import opened ShellRedirect

  // ----- nulterminate -----

  ghost predicate EndsOne(ws: seq<Word>, x: int) {
    exists k :: 0 <= k < |ws| && ws[k].eq == x
  }

  // `t` with the character after each word overwritten by NUL.
  ghost function Ended(t: seq<char>, ws: seq<Word>): seq<char> {
    seq(|t|, x requires 0 <= x < |t| => if EndsOne(ws, x) then NUL else t[x])
  }

  lemma EndedJoin(t: seq<char>, a: seq<Word>, b: seq<Word>)
    ensures Ended(Ended(t, a), b) == Ended(t, a + b)
  {
    forall x | 0 <= x < |t| ensures EndsOne(a + b, x) <==> EndsOne(a, x) || EndsOne(b, x) {
      if EndsOne(a, x) {
        var k :| 0 <= k < |a| && a[k].eq == x;
        assert (a + b)[k].eq == x;
      }
      if EndsOne(b, x) {
        var k :| 0 <= k < |b| && b[k].eq == x;
        assert (a + b)[|a| + k].eq == x;
      }
      if EndsOne(a + b, x) {
        var k :| 0 <= k < |a + b| && (a + b)[k].eq == x;
        assert k < |a| ==> a[k].eq == x;
        assert k >= |a| ==> b[k - |a|].eq == x;
      }
    }
  }

  ghost predicate AllBelow(ws: seq<Word>, n: nat) {
    forall k :: 0 <= k < |ws| ==> ws[k].eq < n
  }

  ghost predicate Fits(c: Cmd, n: nat) {
    AllBelow(Words(c), n)
  }

  lemma FitsParts(c: Cmd, n: nat)
    requires Fits(c, n)
    ensures c.Redir? ==> Fits(c.cmd, n) && c.file.eq < n
    ensures c.Back? ==> Fits(c.cmd, n)
    ensures c.Pipe? || c.List? ==> Fits(c.left, n) && Fits(c.right, n)
  {
    if c.Redir? {
      forall k | 0 <= k < |Words(c.cmd)| ensures Words(c.cmd)[k].eq < n { assert Words(c)[k] == Words(c.cmd)[k]; }
      assert Words(c)[|Words(c.cmd)|] == c.file;
    } else if c.Pipe? || c.List? {
      forall k | 0 <= k < |Words(c.left)| ensures Words(c.left)[k].eq < n { assert Words(c)[k] == Words(c.left)[k]; }
      forall k | 0 <= k < |Words(c.right)| ensures Words(c.right)[k].eq < n {
        assert Words(c)[|Words(c.left)| + k] == Words(c.right)[k];
      }
    }
  }

  method EndWord(buf: array<char>, w: Word)
    requires w.eq < buf.Length
    modifies buf
    ensures buf[..] == Ended(old(buf[..]), [w])
  {
    ghost var t := buf[..];
    buf[w.eq] := NUL;
    assert forall x :: EndsOne([w], x) <==> x == w.eq by { assert [w][0] == w; }
  }

  /** nulterminate: exactly the characters after the words of the tree become NUL. */
  method NulTerminate(buf: array<char>, c: Cmd)
    requires Fits(c, buf.Length)
    modifies buf
    ensures buf[..] == Ended(old(buf[..]), Words(c))
    decreases c
  {
    FitsParts(c, buf.Length);
    ghost var t := buf[..];
    match c
    case Exec(argv) =>
      EndArgs(buf, argv);
    case Redir(d, file, _) =>
      NulTerminate(buf, d);
      EndWord(buf, file);
      EndedJoin(t, Words(d), [file]);
    case Pipe(l, r) =>
      NulTerminate(buf, l);
      NulTerminate(buf, r);
      EndedJoin(t, Words(l), Words(r));
    case List(l, r) =>
      NulTerminate(buf, l);
      NulTerminate(buf, r);
      EndedJoin(t, Words(l), Words(r));
    case Back(d) =>
      NulTerminate(buf, d);
  }

  method EndArgs(buf: array<char>, argv: seq<Word>)
    requires AllBelow(argv, buf.Length)
    modifies buf
    ensures buf[..] == Ended(old(buf[..]), argv)
  {
    ghost var t := buf[..];
    assert Ended(t, []) == t;
    var i := 0;
    while i < |argv|
      invariant 0 <= i <= |argv| && buf[..] == Ended(t, argv[..i])
    {
      EndWord(buf, argv[i]);
      EndedJoin(t, argv[..i], [argv[i]]);
      assert argv[..i + 1] == argv[..i] + [argv[i]];
      i := i + 1;
    }
    assert argv[..i] == argv;
  }

  // ----- the strings afterwards -----

  // The C string at `q`.
  ghost function CString(b: seq<char>, q: nat): seq<char>
    decreases if q < |b| then |b| - q else 0
  {
    if q < |b| && b[q] != NUL then [b[q]] + CString(b, q + 1) else []
  }

  lemma {:induction false} CStringIs(b: seq<char>, t: seq<char>, q: nat, e: nat)
    requires q <= e < |b| && e <= |t| && b[e] == NUL && forall x :: q <= x < e ==> b[x] != NUL && b[x] == t[x]
    ensures CString(b, q) == t[q..e]
    decreases e - q
  {
    if q < e {
      CStringIs(b, t, q + 1, e);
      assert t[q..e] == [t[q]] + t[q + 1..e];
    }
  }

  // No word ends inside another, so each is left whole and terminated.
  lemma WordSurvives(t: seq<char>, b: seq<char>, ws: seq<Word>, k: nat)
    requires |t| <= |b| && b[..|t|] == t && k < |ws| && forall j :: 0 <= j < |ws| ==> IsWord(t, ws[j])
    ensures IsWord(t, ws[k]) && CString(Ended(b, ws), ws[k].q) == t[ws[k].q..ws[k].eq]
  {
    var w, b' := ws[k], Ended(b, ws);
    assert EndsOne(ws, w.eq);
    forall x | w.q <= x < w.eq ensures b'[x] != NUL && b'[x] == t[x] {
      assert b[x] == b[..|t|][x] && Plain(t[x]);
      assert !EndsOne(ws, x);
    }
    CStringIs(b', t, w.q, w.eq);
  }

  // ----- parsecmd -----

  method StrLen(buf: array<char>) returns (n: nat)
    requires NUL in buf[..]
    ensures n < buf.Length && Line(buf[..n + 1])
  {
    n := 0;
    while buf[n] != NUL
      invariant n < buf.Length && forall x :: 0 <= x < n ==> buf[x] != NUL
      invariant exists x :: n <= x < buf.Length && buf[x] == NUL
      decreases buf.Length - n
    {
      n := n + 1;
    }
  }

  // What parsecmd promises of tree `c` for line `t`, with the buffer now `b`.
  ghost predicate Parsed(t: seq<char>, b: seq<char>, c: Cmd) {
    && Line(t) && IsLine(Lex(t, 0), c) && AsWritten(t, c)
    && Spans(t, 0, |t| - 1, TextWords(Lex(t, 0))) && multiset(Words(c)) == multiset(TextWords(Lex(t, 0)))
    && (forall k :: 0 <= k < |Words(c)| ==> var w := Words(c)[k]; IsWord(t, w) && CString(b, w.q) == t[w.q..w.eq])
  }

  lemma TreeWords(t: seq<char>, c: Cmd)
    requires Line(t) && IsLine(Lex(t, 0), c)
    ensures Spans(t, 0, |t| - 1, TextWords(Lex(t, 0))) && multiset(Words(c)) == multiset(TextWords(Lex(t, 0)))
    ensures forall k :: 0 <= k < |Words(c)| ==> IsWord(t, Words(c)[k])
  {
    LexSpans(t, 0);
    LineWords(Lex(t, 0), c);
    var ws := TextWords(Lex(t, 0));
    forall k | 0 <= k < |Words(c)| ensures IsWord(t, Words(c)[k]) {
      assert Words(c)[k] in multiset(Words(c));
      assert Words(c)[k] in ws;
    }
  }

  // Some tree with few enough arguments is one the grammar gives the line.
  ghost predicate HasTree(t: seq<char>)
    requires Line(t)
  {
    exists c :: IsLine(Lex(t, 0), c) && Few(c)
  }

  /**
   parsecmd: it ends on every line, and accepts exactly those the grammar gives a
   tree with fewer than MAXARGS arguments in each command.  That tree is the only
   one; its words are all the words of the line, each once; and every argument and
   file name, read as a C string, is its word.  Every file is opened as the signs
   before its name say.
   */
  method ParseCmd(buf: array<char>) returns (r: Option<Cmd>, ghost t: seq<char>)
    requires NUL in buf[..]
    modifies buf
    ensures t <= old(buf[..]) && Line(t)
    ensures r.Some? <==> HasTree(t)
    ensures r.Some? ==> Parsed(t, buf[..], r.value) && forall c :: IsLine(Lex(t, 0), c) && Few(c) ==> c == r.value
    ensures r.None? ==> buf[..] == old(buf[..])
  {
    var n := StrLen(buf);
    var line := buf[..n + 1];
    t := line;
    ghost var b := buf[..];
    var p := new Parser(line);
    r := p.ParseLine();
    forall c: Cmd ensures LineF(Lex(t, 0)) == Got(c, []) <==> IsLine(Lex(t, 0), c) && Few(c) {
      DescentDecides(Lex(t, 0), c);
    }
    if r.None? {
      return;
    }
    var more := p.Peek("");
    p.AtHead();
    if p.s != n {
      return None, t;
    }
    TreeWords(t, r.value);
    RedirectsAsWritten(t, r.value);
    NulTerminate(buf, r.value);
    forall k | 0 <= k < |Words(r.value)|
      ensures CString(buf[..], Words(r.value)[k].q) == t[Words(r.value)[k].q..Words(r.value)[k].eq] {
      WordSurvives(t, b, Words(r.value), k);
    }
  }
}
