/**
 grep.c's matcher against a declarative meaning: a pattern stands for a list of
 items, and text matches if some part of it is cut into pieces that fit the items.
 */
module Grep {

  // c or '.', and c* or .*
  datatype Item = One(c: char) | Star(c: char)

  predicate Accepts(c: char, x: char) {
    c == '.' || c == x
  }

  // What the pattern from here on asks for; a final '$' is not an item.
  function Items(re: seq<char>): seq<Item> {
    if re == [] || re == ['$'] then []
    else if |re| >= 2 && re[1] == '*' then [Star(re[0])] + Items(re[2..])
    else [One(re[0])] + Items(re[1..])
  }

  // Whether it ends with '$'.
  predicate ToEnd(re: seq<char>) {
    if re == [] then false
    else if re == ['$'] then true
    else if |re| >= 2 && re[1] == '*' then ToEnd(re[2..])
    else ToEnd(re[1..])
  }

  ghost predicate Piece(item: Item, w: seq<char>) {
    (item.One? ==> |w| == 1) && forall x :: 0 <= x < |w| ==> Accepts(item.c, w[x])
  }

  function Concat(pieces: seq<seq<char>>): seq<char> {
    if pieces == [] then [] else pieces[0] + Concat(pieces[1..])
  }

  ghost predicate Cuts(items: seq<Item>, w: seq<char>, pieces: seq<seq<char>>) {
    |pieces| == |items| && Concat(pieces) == w && forall k :: 0 <= k < |items| ==> Piece(items[k], pieces[k])
  }

  // `w` is what the items describe.
  ghost predicate Describes(items: seq<Item>, w: seq<char>) {
    exists pieces :: Cuts(items, w, pieces)
  }

  // The pattern matches a prefix of the text, all of it if anchored at the end.
  ghost predicate HereAt(re: seq<char>, text: seq<char>, j: nat) {
    j <= |text| && (ToEnd(re) ==> j == |text|) && Describes(Items(re), text[..j])
  }

  ghost predicate Here(re: seq<char>, text: seq<char>) {
    exists j: nat :: HereAt(re, text, j)
  }

  // The meaning of a whole pattern: a leading '^' ties it to the start of the text.
  ghost predicate Matches(re: seq<char>, text: seq<char>) {
    if re != [] && re[0] == '^' then Here(re[1..], text)
    else exists i: nat :: i <= |text| && Here(re, text[i..])
  }

  // ----- items one at a time -----

  lemma DescribesNone(w: seq<char>)
    ensures Describes([], w) <==> w == []
  {
    assert Cuts([], [], []);
  }

  lemma DescribesMore(item: Item, rest: seq<Item>, w: seq<char>, k: nat)
    requires k <= |w| && Piece(item, w[..k]) && Describes(rest, w[k..])
    ensures Describes([item] + rest, w)
  {
    var pieces :| Cuts(rest, w[k..], pieces);
    var more := [w[..k]] + pieces;
    assert more[1..] == pieces && w == w[..k] + w[k..];
    assert Cuts([item] + rest, w, more);
  }

  lemma DescribesFirst(item: Item, rest: seq<Item>, w: seq<char>) returns (k: nat)
    requires Describes([item] + rest, w)
    ensures k <= |w| && Piece(item, w[..k]) && Describes(rest, w[k..])
  {
    var items := [item] + rest;
    var pieces :| Cuts(items, w, pieces);
    k := |pieces[0]|;
    assert w[..k] == pieces[0] && w[k..] == Concat(pieces[1..]);
    forall i | 0 <= i < |rest| ensures Piece(rest[i], pieces[1..][i]) { assert Piece(items[i + 1], pieces[i + 1]); }
    assert Piece(items[0], pieces[0]);
    assert Cuts(rest, w[k..], pieces[1..]);
  }

  // ----- patterns one step at a time -----

  lemma HereNothing(text: seq<char>)
    ensures Here([], text)
  {
    DescribesNone(text[..0]);
    assert HereAt([], text, 0);
  }

  lemma HereDollar(text: seq<char>)
    ensures Here(['$'], text) <==> text == []
  {
    forall j: nat | j <= |text| ensures Describes([], text[..j]) <==> j == 0 { DescribesNone(text[..j]); }
    if text == [] { assert HereAt(['$'], text, 0); }
  }

  predicate IsOne(re: seq<char>) {
    re != [] && re != ['$'] && !(|re| >= 2 && re[1] == '*')
  }

  lemma HereOne(re: seq<char>, text: seq<char>)
    requires IsOne(re)
    ensures Here(re, text) <==> text != [] && Accepts(re[0], text[0]) && Here(re[1..], text[1..])
  {
    if Here(re, text) {
      var j: nat :| HereAt(re, text, j);
      var k := DescribesFirst(One(re[0]), Items(re[1..]), text[..j]);
      assert k == 1 && Accepts(re[0], text[..j][..1][0]);
      assert text[..j][1..] == text[1..][..j - 1];
      assert HereAt(re[1..], text[1..], j - 1);
    }
    if text != [] && Accepts(re[0], text[0]) && Here(re[1..], text[1..]) {
      var j: nat :| HereAt(re[1..], text[1..], j);
      assert text[..j + 1][1..] == text[1..][..j];
      DescribesMore(One(re[0]), Items(re[1..]), text[..j + 1], 1);
      assert HereAt(re, text, j + 1);
    }
  }

  // After `k` characters that c accepts, the rest matches.
  ghost predicate StarAt(c: char, re: seq<char>, text: seq<char>, k: nat) {
    k <= |text| && (forall x :: 0 <= x < k ==> Accepts(c, text[x])) && Here(re, text[k..])
  }

  ghost predicate StarHere(c: char, re: seq<char>, text: seq<char>) {
    exists k: nat :: StarAt(c, re, text, k)
  }

  lemma HereStar(re: seq<char>, text: seq<char>)
    requires |re| >= 2 && re[1] == '*'
    ensures Here(re, text) <==> StarHere(re[0], re[2..], text)
  {
    if Here(re, text) {
      var j: nat :| HereAt(re, text, j);
      var k := DescribesFirst(Star(re[0]), Items(re[2..]), text[..j]);
      assert text[..j][k..] == text[k..][..j - k];
      assert HereAt(re[2..], text[k..], j - k);
      forall x | 0 <= x < k ensures Accepts(re[0], text[x]) { assert text[..j][..k][x] == text[x]; }
      assert StarAt(re[0], re[2..], text, k);
    }
    if StarHere(re[0], re[2..], text) {
      var k: nat :| StarAt(re[0], re[2..], text, k);
      var j: nat :| HereAt(re[2..], text[k..], j);
      assert text[..k + j][k..] == text[k..][..j];
      DescribesMore(Star(re[0]), Items(re[2..]), text[..k + j], k);
      assert HereAt(re, text, k + j);
    }
  }

  // ----- the matcher; texts and patterns are C strings without their NUL -----

  /** matchhere */
  method MatchHere(re: seq<char>, text: seq<char>) returns (r: bool)
    ensures r <==> Here(re, text)
    decreases |re|, |text|, 0
  {
    if re == [] {
      HereNothing(text);
      return true;
    }
    if |re| >= 2 && re[1] == '*' {
      HereStar(re, text);
      r := MatchStar(re[0], re[2..], text);
      return;
    }
    if re[0] == '$' && |re| == 1 {
      assert re == ['$'];
      HereDollar(text);
      return text == [];
    }
    HereOne(re, text);
    if text != [] && (re[0] == '.' || re[0] == text[0]) {
      r := MatchHere(re[1..], text[1..]);
      return;
    }
    r := false;
  }

  /** matchstar */
  method MatchStar(c: char, re: seq<char>, text: seq<char>) returns (r: bool)
    ensures r <==> StarHere(c, re, text)
    decreases |re|, |text|, 1
  {
    var k := 0;
    while true
      invariant 0 <= k <= |text| && forall x :: 0 <= x < k ==> Accepts(c, text[x]) && !Here(re, text[x..])
      decreases |text| - k
    {
      r := MatchHere(re, text[k..]);
      if r {
        assert StarAt(c, re, text, k);
        return;
      }
      if k == |text| || !(text[k] == c || c == '.') {
        break;
      }
      k := k + 1;
    }
    forall i: nat ensures !StarAt(c, re, text, i) {
      if i > k && i <= |text| { assert !Accepts(c, text[k]); }
    }
  }

  /** match: true exactly if the text has a matching part. */
  method Match(re: seq<char>, text: seq<char>) returns (r: bool)
    ensures r <==> Matches(re, text)
  {
    if re != [] && re[0] == '^' {
      r := MatchHere(re[1..], text);
      return;
    }
    var i := 0;
    while i <= |text|
      invariant 0 <= i <= |text| + 1 && forall x :: 0 <= x < i ==> !Here(re, text[x..])
    {
      r := MatchHere(re, text[i..]);
      if r {
        return;
      }
      i := i + 1;
    }
    r := false;
  }

  /** Said in one: some part of the text is what the pattern's items describe. */
  lemma MatchesSubstring(re: seq<char>, text: seq<char>)
    ensures var tied := re != [] && re[0] == '^'; var p := if tied then re[1..] else re;
      Matches(re, text) <==> exists i: nat, j: nat :: PartMatches(p, text, i, j) && (tied ==> i == 0)
  {
    var tied := re != [] && re[0] == '^';
    var p := if tied then re[1..] else re;
    if Matches(re, text) {
      var i: nat :| i <= |text| && (tied ==> i == 0) && Here(p, text[i..]) by {
        if tied { assert text[0..] == text; }
      }
      var j: nat :| HereAt(p, text[i..], j);
      assert text[i..][..j] == text[i..i + j];
      assert PartMatches(p, text, i, i + j);
    }
    if i: nat, j: nat :| PartMatches(p, text, i, j) && (tied ==> i == 0) {
      assert text[i..][..j - i] == text[i..j];
      assert HereAt(p, text[i..], j - i);
      assert tied ==> text[i..] == text;
    }
  }

  ghost predicate PartMatches(p: seq<char>, text: seq<char>, i: nat, j: nat) {
    i <= j <= |text| && (ToEnd(p) ==> j == |text|) && Describes(Items(p), text[i..j])
  }
}
