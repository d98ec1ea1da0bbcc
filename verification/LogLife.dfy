/**
 A whole transaction, as one run of the log machine from a boot: a call reads a
 block, changes it, logs it and ends; commit copies it to the log, writes the
 header, installs it and erases the header.  Any contents can be brought to any home
 block this way.
 */
module LogLife {
  import opened Common
  import opened Bytes
  import opened LogProtocol
  import opened LogSafety
  import opened LogRuns
  import opened LogSpace
  import opened LogFull

  // ----- the part of the machine that moves -----

  // The first three buffers: for the header, the home block and its log block.
  datatype Desk = Desk(g: Log, b0: Buf, b1: Buf, b2: Buf)

  function Whole(z: Size, x: Desk): State
    requires z.nbuf >= 3
  {
    State(x.g, [x.b0, x.b1, x.b2] + ColdCache(z.nbuf - 3))
  }

  function BufOf(x: Desk, i: nat): Buf {
    if i == 0 then x.b0 else if i == 1 then x.b1 else x.b2
  }

  function WithBuf(x: Desk, i: nat, b: Buf): Desk {
    if i == 0 then x.(b0 := b) else if i == 1 then x.(b1 := b) else x.(b2 := b)
  }

  const COLD: Buf := Buf(None, false, Zeroed(), 0, {}, None, false)

  // A buffer nobody has locked, and one that thread 0 has.
  function Loose(b: nat, data: Block, refcnt: nat): Buf { Buf(Some(b), true, data, refcnt, {}, None, false) }
  function Taken(b: nat, data: Block, refcnt: nat): Buf { Buf(Some(b), true, data, refcnt, {}, Some(0), false) }

  lemma BufferChanges(z: Size, x: Desk, i: nat, b: Buf)
    requires z.nbuf >= 3 && i < 3
    ensures Whole(z, x).cache[i] == BufOf(x, i)
    ensures Whole(z, x).cache[i := b] == Whole(z, WithBuf(x, i, b)).cache
  {
  }

  // Thread 0 is the one that works.
  ghost predicate Ready(z: Size, x: Desk) {
    z.nbuf >= 3 && |x.g.ops| > 0 && (Recovering(x.g) ==> x.g.committer == 0)
  }

  // bread of a block for the first time.
  lemma Reads(l: Layout, k: nat, z: Size, x: Desk, i: nat, b: nat) returns (y: Desk)
    requires Ready(z, x) && Found(l, k, z, Whole(z, x)) && i < 3 && BufOf(x, i) == COLD && b < |x.g.disk|
    requires forall j: nat :: j < 3 ==> BufOf(x, j).key != Some(b)
    ensures y == WithBuf(x, i, Taken(b, x.g.disk[b], 1)) && Found(l, k, z, Whole(z, y))
  {
    y := WithBuf(x, i, Taken(b, x.g.disk[b], 1));
    BufferChanges(z, x, i, Taken(b, x.g.disk[b], 1));
    var s := Whole(z, x);
    forall j | 0 <= j < |s.cache| ensures s.cache[j].key != Some(b) {
      if j < 3 { assert s.cache[j] == BufOf(x, j); }
    }
    Bread(l, k, z, s, 0, i, b);
  }

  // bread of a block that is cached.
  lemma Relocks(l: Layout, k: nat, z: Size, x: Desk, i: nat, b: nat, data: Block, n: nat) returns (y: Desk)
    requires Ready(z, x) && Found(l, k, z, Whole(z, x)) && i < 3 && BufOf(x, i) == Loose(b, data, n)
    ensures y == WithBuf(x, i, Taken(b, data, n + 1)) && Found(l, k, z, Whole(z, y))
  {
    y := WithBuf(x, i, Taken(b, data, n + 1));
    var s := Whole(z, x);
    BufferChanges(z, x, i, Taken(b, data, n + 1));
    Go(l, k, z, s, BgetHit(0, i));
    var s1 := AfterBgetHit(l, s, 0, i);
    assert s1.cache[i] == Loose(b, data, n + 1).(waiters := {} + {0});
    GoLock(l, k, z, s1, 0, i);
    var none: set<nat> := {};
    assert none + {0} - {0} == none;
    assert AfterLockBuf(l, s1, 0, i).cache == s.cache[i := Taken(b, data, n + 1)];
  }

  lemma Releases(l: Layout, k: nat, z: Size, x: Desk, i: nat, b: nat, data: Block, n: nat) returns (y: Desk)
    requires Ready(z, x) && Found(l, k, z, Whole(z, x)) && i < 3 && BufOf(x, i) == Taken(b, data, n) && n > 0
    ensures y == WithBuf(x, i, Loose(b, data, n - 1)) && Found(l, k, z, Whole(z, y))
  {
    y := WithBuf(x, i, Loose(b, data, n - 1));
    var s := Whole(z, x);
    BufferChanges(z, x, i, Loose(b, data, n - 1));
    GoRelse(l, k, z, s, 0, i);
    assert AfterBrelse(l, s, 0, i).cache == s.cache[i := Loose(b, data, n - 1)];
  }

  // A step that changes buffer `i` and the log.
  lemma Steps(l: Layout, k: nat, z: Size, x: Desk, step: Step, i: nat, y: Desk)
    requires z.nbuf >= 3 && Found(l, k, z, Whole(z, x)) && Enabled(l, Whole(z, x), step) && Frugal(k, Whole(z, x), step)
    requires i < 3 && y == WithBuf(x, i, BufOf(y, i)).(g := y.g)
    requires Apply(l, Whole(z, x), step) == State(y.g, Whole(z, x).cache[i := BufOf(y, i)])
    ensures Found(l, k, z, Whole(z, y))
  {
    BufferChanges(z, x, i, BufOf(y, i));
    Go(l, k, z, Whole(z, x), step);
  }

  // A step that changes the log only.
  lemma Notes(l: Layout, k: nat, z: Size, x: Desk, step: Step, g: Log) returns (y: Desk)
    requires z.nbuf >= 3 && Found(l, k, z, Whole(z, x)) && Enabled(l, Whole(z, x), step) && Frugal(k, Whole(z, x), step)
    requires Apply(l, Whole(z, x), step) == Whole(z, x).(log := g)
    ensures y == x.(g := g) && Found(l, k, z, Whole(z, y))
  {
    y := x.(g := g);
    Go(l, k, z, Whole(z, x), step);
  }

  // ----- boot -----

  const EMPTY_HEADER: Block := PutHeader(Zeroed(), [])

  function Booted(l: Layout, z: Size): Log
    requires l.start < z.blocks
  {
    Fresh(z).log.(disk := FreshDisk(z.blocks)[l.start := EMPTY_HEADER], phase := Normal)
  }

  lemma PowerOn(l: Layout, k: nat, z: Size) returns (y: Desk)
    requires Fits(l, z) && z.nbuf >= 3
    ensures y == Desk(Fresh(z).log, Taken(l.start, Zeroed(), 1), COLD, COLD) && Found(l, k, z, Whole(z, y))
  {
    var x := Desk(Fresh(z).log, COLD, COLD, COLD);
    assert Whole(z, x).cache == Fresh(z).cache;
    assert Leads(l, k, z, [Fresh(z)], [], Fresh(z));
    y := Reads(l, k, z, x, 0, l.start);
  }

  lemma BootsUp(l: Layout, k: nat, z: Size) returns (y: Desk)
    requires Fits(l, z) && z.nbuf >= 3
    ensures y == Desk(Booted(l, z), Loose(l.start, EMPTY_HEADER, 0), COLD, COLD) && Found(l, k, z, Whole(z, y))
  {
    FreshBoots(l, z);
    var x := PowerOn(l, k, z);
    assert Header(Zeroed()) == [];
    x := Notes(l, k, z, x, ReadHead(0), x.g.(lh := [], phase := Replaying(0)));
    x := Notes(l, k, z, x, Installed, x.g.(lh := [], phase := EndingReplay));
    y := Desk(Booted(l, z), Taken(l.start, EMPTY_HEADER, 1), COLD, COLD);
    Steps(l, k, z, x, ClearHead(0), 0, y);
    y := Releases(l, k, z, y, 0, l.start, EMPTY_HEADER, 1);
  }

  // ----- a call -----

  // The machine accepts calls, none is under way, and thread 0 is about to make one.
  ghost predicate Idle(l: Layout, z: Size, x: Desk) {
    && Ready(z, x) && x.g.phase.Normal? && x.g.lh == [] && Outstanding(x.g.ops) == 0 && x.g.ops[0] == None
    && |x.g.current| == |x.g.disk| == z.blocks && Fits(l, z)
  }

  lemma OneOutstanding(ops: seq<Option<nat>>, n: nat)
    requires |ops| > 0 && Outstanding(ops) == 0 && ops[0] == None
    ensures Outstanding(ops[0 := Some(n)]) == 1 && ops[0 := Some(n)][0 := None] == ops
  {
    assert ops[0 := Some(n)][1..] == ops[1..];
  }

  lemma Begins(l: Layout, k: nat, z: Size, x: Desk, b: nat) returns (y: Desk)
    requires Idle(l, z, x) && Found(l, k, z, Whole(z, x)) && x.b1 == COLD && x.b2 == COLD
    requires x.b0.key == Some(l.start) && Home(l, x.g.disk, b)
    ensures y == x.(g := x.g.(ops := x.g.ops[0 := Some(0)]), b1 := Taken(b, x.g.disk[b], 1))
    ensures Found(l, k, z, Whole(z, y))
  {
    y := Notes(l, k, z, x, BeginOp(0), x.g.(ops := x.g.ops[0 := Some(0)]));
    y := Reads(l, k, z, y, 1, b);
  }

  // The log once block `b` with contents `data` is in it.
  function WithLogged(g: Log, b: nat, data: Block): Log
    requires b < |g.current| && |g.ops| > 0
  {
    g.(current := g.current[b := data], lh := [b], ops := g.ops[0 := Some(1)])
  }

  lemma Changes(l: Layout, k: nat, z: Size, x: Desk, b: nat, data: Block) returns (y: Desk)
    requires Ready(z, x) && Found(l, k, z, Whole(z, x)) && x.g.phase.Normal? && x.g.lh == [] && x.g.ops[0] == Some(0)
    requires Outstanding(x.g.ops) == 1 && |x.g.current| == |x.g.disk| && Home(l, x.g.disk, b) && l.nlog >= 2 && k >= 1
    requires x.b1.key == Some(b) && x.b1 == Taken(b, x.b1.data, 1)
    ensures y == x.(g := WithLogged(x.g, b, data), b1 := Loose(b, data, 1)) && Found(l, k, z, Whole(z, y))
  {
    var w := x.(b1 := Taken(b, data, 1).(dirty := true));
    Steps(l, k, z, x, Modify(0, 1, data), 1, w);
    y := x.(g := WithLogged(x.g, b, data), b1 := Taken(b, data, 2));
    Steps(l, k, z, w, LogWrite(0, 1), 1, y);
    y := Releases(l, k, z, y, 1, b, data, 2);
  }

  // ----- commit -----

  // Commit has come to some phase, with block `b` logged.
  ghost predicate Commits(l: Layout, z: Size, x: Desk, b: nat, phase: Phase) {
    && Ready(z, x) && x.g.committer == 0 && x.g.lh == [b] && x.g.phase == phase && !Recovering(x.g)
    && Fits(l, z) && l.nlog >= 2 && |x.g.disk| == z.blocks && Home(l, x.g.disk, b)
  }

  lemma CopiesToLog(l: Layout, k: nat, z: Size, x: Desk, b: nat, data: Block) returns (y: Desk)
    requires Commits(l, z, x, b, WritingLog(0)) && Found(l, k, z, Whole(z, x))
    requires x.b0.key == Some(l.start) && x.b1 == Loose(b, data, 1) && x.b2 == COLD
    ensures y == x.(g := x.g.(disk := x.g.disk[l.start + 1 := data], phase := WritingLog(1)),
                    b2 := Loose(l.start + 1, data, 0))
    ensures Found(l, k, z, Whole(z, y))
  {
    var w := Reads(l, k, z, x, 2, l.start + 1);
    w := Relocks(l, k, z, w, 1, b, data, 1);
    y := w.(g := x.g.(disk := x.g.disk[l.start + 1 := data], phase := WritingLog(1)),
            b2 := Taken(l.start + 1, data, 1));
    Steps(l, k, z, w, WriteLogBlock(2, 1), 2, y);
    y := Releases(l, k, z, y, 2, l.start + 1, data, 1);
    y := Releases(l, k, z, y, 1, b, data, 2);
  }

  lemma WritesHead(l: Layout, k: nat, z: Size, x: Desk, b: nat, head: Block) returns (y: Desk, head': Block)
    requires Commits(l, z, x, b, WritingLog(1)) && Found(l, k, z, Whole(z, x)) && x.b0 == Loose(l.start, head, 0)
    ensures y == x.(g := x.g.(disk := x.g.disk[l.start := head'], phase := Installing(0),
                              history := x.g.history + [x.g.current]), b0 := Loose(l.start, head', 0))
    ensures Found(l, k, z, Whole(z, y))
  {
    var w := Notes(l, k, z, x, LogWritten, x.g.(phase := WritingHead));
    w := Relocks(l, k, z, w, 0, l.start, head, 0);
    head' := PutHeader(head, [b]);
    y := w.(g := x.g.(disk := x.g.disk[l.start := head'], phase := Installing(0),
                      history := x.g.history + [x.g.current]), b0 := Taken(l.start, head', 1));
    Steps(l, k, z, w, WriteHead(0), 0, y);
    y := Releases(l, k, z, y, 0, l.start, head', 1);
  }

  lemma Installs(l: Layout, k: nat, z: Size, x: Desk, b: nat, data: Block) returns (y: Desk)
    requires Commits(l, z, x, b, Installing(0)) && Found(l, k, z, Whole(z, x))
    requires x.b1 == Loose(b, data, 1) && x.b2 == Loose(l.start + 1, data, 0)
    ensures y == x.(g := x.g.(disk := x.g.disk[b := data], phase := Installing(1)), b1 := Loose(b, data, 0))
    ensures Found(l, k, z, Whole(z, y))
  {
    var w := Relocks(l, k, z, x, 2, l.start + 1, data, 0);
    w := Relocks(l, k, z, w, 1, b, data, 1);
    y := w.(g := x.g.(disk := x.g.disk[b := data], phase := Installing(1)), b1 := Taken(b, data, 1));
    Steps(l, k, z, w, InstallBlock(2, 1), 1, y);
    y := Releases(l, k, z, y, 2, l.start + 1, data, 1);
    y := Releases(l, k, z, y, 1, b, data, 1);
  }

  lemma Erases(l: Layout, k: nat, z: Size, x: Desk, b: nat, head: Block) returns (y: Desk, head': Block)
    requires Commits(l, z, x, b, Installing(1)) && Found(l, k, z, Whole(z, x)) && x.b0 == Loose(l.start, head, 0)
    ensures y == x.(g := x.g.(lh := [], disk := x.g.disk[l.start := head'], phase := Normal),
                    b0 := Loose(l.start, head', 0))
    ensures Found(l, k, z, Whole(z, y))
  {
    var w := Notes(l, k, z, x, Installed, x.g.(lh := [], phase := ClearingHead));
    w := Relocks(l, k, z, w, 0, l.start, head, 0);
    head' := PutHeader(head, []);
    y := w.(g := w.g.(disk := x.g.disk[l.start := head'], phase := Finishing), b0 := Taken(l.start, head', 1));
    Steps(l, k, z, w, ClearHead(0), 0, y);
    y := Releases(l, k, z, y, 0, l.start, head', 1);
    y := Notes(l, k, z, y, EndCommit, y.g.(phase := Normal));
  }

  // ----- the run -----

  // end_op by the only call there is.
  lemma CallMade(l: Layout, k: nat, z: Size, b: nat, data: Block) returns (y: Desk)
    requires Fits(l, z) && z.nbuf >= 3 && l.nlog >= 2 && k >= 1 && b < z.blocks && !InLog(l, b)
    ensures y == Desk(Booted(l, z).(current := FreshDisk(z.blocks)[b := data], lh := [b], phase := WritingLog(0)),
                      Loose(l.start, EMPTY_HEADER, 0), Loose(b, data, 1), COLD)
    ensures Found(l, k, z, Whole(z, y))
  {
    var x := BootsUp(l, k, z);
    NobodyCalls(z.threads);
    OneOutstanding(x.g.ops, 0);
    OneOutstanding(x.g.ops, 1);
    y := Begins(l, k, z, x, b);
    y := Changes(l, k, z, y, b, data);
    assert y.g.ops[0 := None] == x.g.ops;
    y := Notes(l, k, z, y, EndOp(0), y.g.(ops := x.g.ops, committer := 0, phase := WritingLog(0)));
  }

  lemma {:induction false} NobodyCalls(n: nat)
    ensures Outstanding(seq<Option<nat>>(n, _ => None)) == 0
  {
    if n > 0 {
      NobodyCalls(n - 1);
      assert seq<Option<nat>>(n, _ => None)[1..] == seq<Option<nat>>(n - 1, _ => None);
    }
  }

  // The machine is idle again, `b` has reached its home with contents `data`, and the history has one state more.
  ghost predicate Durable(s: State, b: nat, data: Block) {
    && s.log.phase.Normal? && s.log.lh == [] && b < |s.log.disk| && s.log.disk[b] == data
    && |s.log.history| == 2 && b < |s.log.history[1]| && s.log.history[1][b] == data
  }

  /**
   Any contents can be made durable in any home block: some run from boot, with calls
   that add at most `k` blocks, begins a call, logs the block and commits it.
   */
  lemma CommitsToDisk(l: Layout, k: nat, z: Size, b: nat, data: Block)
    requires Fits(l, z) && z.nbuf >= 3 && l.nlog >= 2 && k >= 1 && b < z.blocks && !InLog(l, b)
    ensures exists s :: Reached(l, k, z, s) && Durable(s, b, data)
  {
    var y := CallMade(l, k, z, b, data);
    y := CopiesToLog(l, k, z, y, b, data);
    var head;
    y, head := WritesHead(l, k, z, y, b, EMPTY_HEADER);
    y := Installs(l, k, z, y, b, data);
    y, head := Erases(l, k, z, y, b, head);
    FoundReached(l, k, z, Whole(z, y));
    assert Durable(Whole(z, y), b, data);
  }
}
