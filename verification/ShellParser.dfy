/**
 sh.c's recursive-descent parser over a cursor, proved to do on the text what
 descent does on its tokens.  Where the source panics, a method answers None.
 */
module ShellParser {
  import opened Common
  import opened ShellText
  import opened ShellGrammar
  import opened ShellDescent

  // What gettoken returns for a token.
  function Code(tok: Token): char {
    match tok
    case Text(_) => 'a'
    case Shift => '+'
    case Sym(c) => c
  }

  class Parser {
    const t: seq<char>     // the line with its terminating NUL; es is its position
    var s: nat             // *ps

    constructor (t: seq<char>)
      requires Line(t)
      ensures this.t == t && s == 0
    {
      this.t := t;
      s := 0;
    }

    ghost predicate Valid()
      reads this
    {
      Line(t) && s < |t|
    }

    // The tokens still to come.
    ghost function Rest(): seq<Token>
      reads this
      requires Valid()
    {
      Lex(t, s)
    }

    // Skips the white space at the cursor.
    method SkipBlanks(from: nat) returns (to: nat)
      requires Line(t) && from < |t|
      ensures to == SkipSpaces(t, from)
    {
      to := from;
      while to < |t| - 1 && Space(t[to])
        invariant from <= to < |t| && forall x :: from <= x < to ==> Space(t[x])
      {
        to := to + 1;
      }
      LexSkips(t, from, to);
    }

    /** gettoken: the next token, its code, and its place; the cursor moves past it and the blanks around it. */
    method GetToken() returns (ret: char, q: nat, eq: nat, ghost tok: Token)
      requires Valid()
      modifies `s
      ensures Valid() && old(s) <= s && q <= eq < |t|
      ensures ret == NUL ==> old(Rest()) == [] && Rest() == []
      ensures ret != NUL ==>
        s > old(s) && old(Rest()) == [tok] + Rest() && ret == Code(tok) && (tok.Text? ==> tok.w == Word(q, eq))
      ensures ret != NUL ==> (tok.Sym? ==> Symbol(tok.c)) && (!Space(t[old(s)]) ==> tok == TokenAt(t, old(s)).0)
    {
      tok := Shift;
      var p := SkipBlanks(s);
      LexSkips(t, s, p);
      q := p;
      ret := t[p];
      if t[p] == NUL {
        eq := p;
        s := p;
        return;
      }
      tok := TokenAt(t, p).0;
      if t[p] == '|' || t[p] == '(' || t[p] == ')' || t[p] == ';' || t[p] == '&' || t[p] == '<' {
        eq := p + 1;
      } else if t[p] == '>' {
        eq := p + 1;
        if t[eq] == '>' {
          ret := '+';
          eq := eq + 1;
        }
      } else {
        ret := 'a';
        eq := ScanWord(p);
      }
      assert eq == TokenAt(t, p).1;
      s := SkipBlanks(eq);
      LexSkips(t, eq, s);
    }

    method ScanWord(p: nat) returns (e: nat)
      requires Line(t) && p < |t| && Plain(t[p])
      ensures e == WordEnd(t, p)
    {
      e := p;
      while e < |t| - 1 && !Space(t[e]) && !Symbol(t[e])
        invariant p <= e < |t| && forall x :: p <= x < e ==> Plain(t[x])
        invariant WordEnd(t, p) == WordEnd(t, e)
      {
        e := e + 1;
      }
    }

    // peek: skip blanks and look at the next character.
    method Peek(toks: string) returns (b: bool)
      requires Valid()
      modifies `s
      ensures Valid() && old(s) <= s && Rest() == old(Rest()) && !Space(t[s])
      ensures b <==> t[s] != NUL && t[s] in toks
    {
      var p := SkipBlanks(s);
      LexSkips(t, s, p);
      s := p;
      b := t[s] != NUL && t[s] in toks;
    }

    // The first token, seen at a cursor that is not on a blank.
    lemma AtHead()
      requires Valid() && !Space(t[s])
      ensures t[s] == NUL <==> Rest() == []
      ensures Rest() != [] ==> Rest()[0] == TokenAt(t, s).0
    {
      assert SkipSpaces(t, s) == s;
    }

    // Whether the tokens to come start with symbol `c`, other than '>'.
    method PeekSym(c: char) returns (b: bool)
      requires Valid() && Symbol(c) && c != '>'
      modifies `s
      ensures Valid() && old(s) <= s && Rest() == old(Rest()) && (b <==> Head(Rest(), c))
    {
      b := Peek([c]);
      AtHead();
    }

    // gettoken after a peek has seen symbol `c`.
    method Eat(c: char)
      requires Valid() && Head(Rest(), c)
      modifies `s
      ensures Valid() && old(s) < s && Rest() == old(Rest())[1..]
    {
      ghost var rest := Rest();
      var ret, q, eq;
      ghost var tok;
      ret, q, eq, tok := GetToken();
    }

    // ----- redirections and simple commands -----

    // The outcome `r` of a parsing method is what descent gives on the tokens `rest` it started with.
    ghost predicate Agrees(r: Option<Cmd>, p: Parse)
      reads this
      requires Valid()
    {
      p == if r.Some? then Got(r.value, Rest()) else Fail
    }

    // One redirection: its operator and its file.
    method EatRedir(c: Cmd) returns (r: Option<Cmd>)
      requires Valid() && Rest() != [] && RedirOp(Rest()[0]).Some?
      modifies `s
      ensures Valid() && old(s) < s
      ensures var ts := old(Rest()); r.Some? <==> |ts| >= 2 && ts[1].Text?
      ensures r.Some? ==> var ts := old(Rest()); r.value == Redir(c, ts[1].w, RedirOp(ts[0]).value) && Rest() == ts[2..]
    {
      ghost var ts := Rest();
      var ret, q, eq;
      ghost var op, w;
      ret, q, eq, op := GetToken();
      ghost var ts1 := Rest();
      assert ts[0] == op && ts[1..] == ts1;
      var tok;
      tok, q, eq, w := GetToken();
      if tok != 'a' {
        return None;
      }
      CodeOfText(w);
      assert ts[1] == w && ts[2..] == Rest();
      r := Some(Redir(c, Word(q, eq), if ret == '<' then Mode.Read else if ret == '>' then Truncate else Append));
    }

    // peek(ps, es, "<>")
    method PeekRedir() returns (b: bool)
      requires Valid()
      modifies `s
      ensures Valid() && old(s) <= s && Rest() == old(Rest()) && (b <==> Rest() != [] && RedirOp(Rest()[0]).Some?)
    {
      b := Peek("<>");
      AtHead();
    }

    /** parseredirs: the redirections at the cursor, wrapped around `c`. */
    method ParseRedirs(c: Cmd) returns (r: Option<Cmd>)
      requires Valid()
      modifies `s
      ensures Valid() && old(s) <= s && Agrees(r, RedirsF(c, old(Rest())))
    {
      ghost var ts := Rest();
      r := Some(c);
      var more := PeekRedir();
      while more
        invariant Valid() && old(s) <= s && r.Some? && RedirsF(c, ts) == RedirsF(r.value, Rest())
        invariant more <==> Rest() != [] && RedirOp(Rest()[0]).Some?
        decreases |t| - s
      {
        r := EatRedir(r.value);
        if r.None? {
          return;
        }
        more := PeekRedir();
      }
    }

    // peek(ps, es, "|)&;")
    method PeekStop() returns (b: bool)
      requires Valid()
      modifies `s
      ensures Valid() && old(s) <= s && Rest() == old(Rest()) && (b <==> Rest() != [] && Stops(Rest()[0]))
    {
      b := Peek("|)&;");
      AtHead();
    }

    // parseexec without a block: arguments and redirections in any order, fewer than MAXARGS arguments.
    method ParseSimple() returns (r: Option<Cmd>)
      requires Valid()
      modifies `s
      ensures Valid() && old(s) <= s && Agrees(r, SimpleF(Exec([]), old(Rest())))
    {
      ghost var ts := Rest();
      r := SimpleRedirs(Exec([]));
      if r.None? {
        return;
      }
      var argc := 0;
      var stop := PeekStop();
      while !stop
        invariant Valid() && old(s) <= s && r.Some? && SimpleF(Exec([]), ts) == SimpleF(r.value, Rest())
        invariant argc == |Args(r.value)| < MAXARGS
        invariant NoRedir(Rest()) && ExecWith(r.value, Args(r.value)) && (stop <==> Rest() != [] && Stops(Rest()[0]))
        decreases |t| - s
      {
        ghost var now := Rest();
        var tok, q, eq;
        ghost var w;
        tok, q, eq, w := GetToken();
        if tok == NUL {
          break;
        }
        assert now[0] == w && now[1..] == Rest();
        if tok != 'a' {
          return None;
        }
        CodeOfText(w);
        r := AddArg(r.value, Word(q, eq));
        argc := argc + 1;
        if argc >= MAXARGS {
          return None;
        }
        r := SimpleRedirs(r.value);
        if r.None? {
          return;
        }
        stop := PeekStop();
      }
    }

    // Redirections at the start of a simple command or after an argument.
    method SimpleRedirs(c: Cmd) returns (r: Option<Cmd>)
      requires Valid() && ExecWith(c, Args(c))
      modifies `s
      ensures Valid() && old(s) <= s
      ensures r.None? ==> SimpleF(c, old(Rest())) == Fail
      ensures r.Some? ==> SimpleF(c, old(Rest())) == SimpleF(r.value, Rest()) && NoRedir(Rest())
      ensures r.Some? ==> Args(r.value) == Args(c) && ExecWith(r.value, Args(r.value))
    {
      ghost var ts := Rest();
      r := ParseRedirs(c);
      RedirsInSimple(c, ts);
    }

    // ----- the grammar -----

    /** parseblock */
    method ParseBlock() returns (r: Option<Cmd>)
      requires Valid()
      modifies `s
      ensures Valid() && old(s) <= s
      ensures if Head(old(Rest()), '(') then Agrees(r, BlockF(old(Rest()))) else r.None?
      decreases |t| - s, 0
    {
      var here := PeekSym('(');
      if !here {
        return None;
      }
      Eat('(');
      r := ParseLine();
      if r.None? {
        return;
      }
      here := PeekSym(')');
      if !here {
        return None;
      }
      Eat(')');
      r := ParseRedirs(r.value);
    }

    /** parseexec: a block or a simple command. */
    method ParseExec() returns (r: Option<Cmd>)
      requires Valid()
      modifies `s
      ensures Valid() && old(s) <= s && Agrees(r, ExecF(old(Rest())))
      decreases |t| - s, 1
    {
      var block := PeekSym('(');
      if block {
        r := ParseBlock();
      } else {
        r := ParseSimple();
      }
    }

    /** parsepipe */
    method ParsePipe() returns (r: Option<Cmd>)
      requires Valid()
      modifies `s
      ensures Valid() && old(s) <= s && Agrees(r, PipeF(old(Rest())))
      decreases |t| - s, 2
    {
      r := ParseExec();
      if r.None? {
        return;
      }
      var bar := PeekSym('|');
      if bar {
        Eat('|');
        var right := ParsePipe();
        r := if right.Some? then Some(Pipe(r.value, right.value)) else None;
      }
    }

    /** parseline */
    method ParseLine() returns (r: Option<Cmd>)
      requires Valid()
      modifies `s
      ensures Valid() && old(s) <= s && Agrees(r, LineF(old(Rest())))
      decreases |t| - s, 3
    {
      r := ParsePipe();
      if r.None? {
        return;
      }
      ghost var c, ts := r.value, Rest();
      var amp := PeekSym('&');
      while amp
        invariant Valid() && old(s) <= s && r.Some? && BacksF(c, ts) == BacksF(r.value, Rest())
        invariant (amp <==> Head(Rest(), '&'))
        decreases |t| - s
      {
        Eat('&');
        r := Some(Back(r.value));
        amp := PeekSym('&');
      }
      var semi := PeekSym(';');
      if semi {
        Eat(';');
        var right := ParseLine();
        r := if right.Some? then Some(List(r.value, right.value)) else None;
      }
    }
  }

  // An argument is added, under the redirections seen so far.
  method AddArg(c: Cmd, w: Word) returns (r: Option<Cmd>)
    requires ExecWith(c, Args(c))
    ensures r == Some(SetArgs(c, Args(c) + [w])) && Args(r.value) == Args(c) + [w] && ExecWith(r.value, Args(r.value))
  {
    ArgAdded(c, Args(c), w);
    ArgsOf(SetArgs(c, Args(c) + [w]), Args(c) + [w]);
    r := Some(SetArgs(c, Args(c) + [w]));
  }

  predicate NoRedir(ts: seq<Token>) {
    ts == [] || RedirOp(ts[0]).None?
  }

  // Within a simple command, redirections can be taken first.
  lemma {:induction false} RedirsInSimple(c: Cmd, ts: seq<Token>)
    requires ExecWith(c, Args(c))
    ensures var p := RedirsF(c, ts);
      if p.Got? then SimpleF(c, ts) == SimpleF(p.c, p.rest) && NoRedir(p.rest) &&
      Args(p.c) == Args(c) && ExecWith(p.c, Args(p.c))
      else SimpleF(c, ts) == Fail
    decreases |ts|
  {
    if !NoRedir(ts) && |ts| >= 2 && ts[1].Text? {
      RedirsInSimple(Redir(c, ts[1].w, RedirOp(ts[0]).value), ts[2..]);
    }
  }

  lemma CodeOfText(tok: Token)
    requires Code(tok) == 'a' && (tok.Sym? ==> Symbol(tok.c))
    ensures tok.Text?
  {
  }
}
