/** The words of a command line, and the command trees sh.c builds over them. */
module ShellText {

  const NUL: char := '\0'

  // whitespace[] and symbols[]
  predicate Space(c: char) {
    c == ' ' || c == '\t' || c == '\r' || c == '\n' || c == 11 as char
  }

  predicate Symbol(c: char) {
    c == '<' || c == '|' || c == '>' || c == '&' || c == ';' || c == '(' || c == ')'
  }

  predicate Plain(c: char) {
    !Space(c) && !Symbol(c) && c != NUL
  }

  // A word: where it starts and where it ends.
  datatype Word = Word(q: nat, eq: nat)

  // `w` is a maximal run of plain characters of the line.
  ghost predicate IsWord(t: seq<char>, w: Word) {
    w.q < w.eq < |t| && (forall x :: w.q <= x < w.eq ==> Plain(t[x])) && !Plain(t[w.eq])
  }

  ghost predicate InWord(w: Word, x: nat) {
    w.q <= x < w.eq
  }

  // `ws` are the words of the line between positions `a` and `b`: in order, and all of them.
  ghost predicate Spans(t: seq<char>, a: nat, b: nat, ws: seq<Word>) {
    && a <= b < |t|
    && (forall k :: 0 <= k < |ws| ==> IsWord(t, ws[k]) && a <= ws[k].q && ws[k].eq <= b)
    && (forall k, l :: 0 <= k < l < |ws| ==> ws[k].eq <= ws[l].q)
    && (forall x: nat :: a <= x < b && Plain(t[x]) ==> Recorded(ws, x))
  }

  ghost predicate Recorded(ws: seq<Word>, x: nat) {
    exists k :: 0 <= k < |ws| && InWord(ws[k], x)
  }

  lemma SpansNone(t: seq<char>, a: nat, b: nat)
    requires a <= b < |t| && forall x: nat :: a <= x < b ==> !Plain(t[x])
    ensures Spans(t, a, b, [])
  {
  }

  lemma SpansOne(t: seq<char>, a: nat, b: nat, w: Word)
    requires IsWord(t, w) && a <= w.q && w.eq <= b < |t|
    requires forall x: nat :: a <= x < b && !InWord(w, x) ==> !Plain(t[x])
    ensures Spans(t, a, b, [w])
  {
    forall x: nat | a <= x < b && Plain(t[x]) ensures Recorded([w], x) { assert InWord([w][0], x); }
  }

  lemma SpansJoin(t: seq<char>, a: nat, b: nat, c: nat, ws: seq<Word>, ws': seq<Word>)
    requires Spans(t, a, b, ws) && Spans(t, b, c, ws')
    ensures Spans(t, a, c, ws + ws')
  {
    forall x: nat | a <= x < c && Plain(t[x]) ensures Recorded(ws + ws', x) {
      if x < b {
        var k :| 0 <= k < |ws| && InWord(ws[k], x);
        assert InWord((ws + ws')[k], x);
      } else {
        var k :| 0 <= k < |ws'| && InWord(ws'[k], x);
        assert InWord((ws + ws')[|ws| + k], x);
      }
    }
  }

  // ----- commands -----

  // How a redirection opens its file: <, > or >>.
  datatype Mode = Read | Truncate | Append

  datatype Cmd =
    | Exec(argv: seq<Word>)
    | Redir(cmd: Cmd, file: Word, mode: Mode)
    | Pipe(left: Cmd, right: Cmd)
    | List(left: Cmd, right: Cmd)
    | Back(cmd: Cmd)

  function Words(c: Cmd): seq<Word> {
    match c
    case Exec(argv) => argv
    case Redir(d, file, _) => Words(d) + [file]
    case Pipe(l, r) => Words(l) + Words(r)
    case List(l, r) => Words(l) + Words(r)
    case Back(d) => Words(d)
  }

  // The exec node under some redirections, with its arguments changed in place.
  function SetArgs(c: Cmd, argv: seq<Word>): Cmd {
    match c
    case Exec(_) => Exec(argv)
    case Redir(d, file, mode) => Redir(SetArgs(d, argv), file, mode)
    case _ => c
  }

  // Redirections over an exec node with these arguments.
  predicate ExecWith(c: Cmd, argv: seq<Word>) {
    match c
    case Exec(a) => a == argv
    case Redir(d, _, _) => ExecWith(d, argv)
    case _ => false
  }

  lemma {:induction false} ArgAdded(c: Cmd, argv: seq<Word>, w: Word)
    requires ExecWith(c, argv)
    ensures ExecWith(SetArgs(c, argv + [w]), argv + [w])
    ensures multiset(Words(SetArgs(c, argv + [w]))) == multiset(Words(c)) + multiset{w}
  {
    match c
    case Exec(_) =>
    case Redir(d, file, _) => ArgAdded(d, argv, w);
  }
}
