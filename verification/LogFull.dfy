/**
 Runs of the log protocol that fill the log as far as begin_op's reservation lets
 them, so that whether log_write can panic is decided on the protocol itself.
 */
module LogFull {
  import opened Common
  import opened Bytes
  import opened LogProtocol
  import opened LogSafety
  import opened LogRuns
  import opened LogSpace
  import LruCache

  // Threads, disk blocks and buffers.
  datatype Size = Size(threads: nat, blocks: nat, nbuf: nat)

  ghost predicate HasSize(s: State, z: Size) {
    |s.log.ops| == z.threads && |s.log.disk| == z.blocks && |s.cache| == z.nbuf
  }

  // Some run from a boot, with calls that add at most `k` blocks each, ends in state `s`.
  ghost predicate Reached(l: Layout, k: nat, z: Size, s: State) {
    exists s0, steps :: RunsTo(l, k, z, s0, steps, s)
  }

  ghost predicate RunsTo(l: Layout, k: nat, z: Size, s0: State, steps: seq<Step>, s: State) {
    && Boots(l, s0) && HasSize(s0, z)
    && ValidRun(l, s0, steps) && FrugalRun(l, k, s0, steps) && After(l, s0, steps) == s
  }

  // ----- runs from a fresh disk, extended one step at a time -----

  function FreshDisk(blocks: nat): Disk {
    seq(blocks, _ => Zeroed())
  }

  function Fresh(z: Size): State {
    State(Log(FreshDisk(z.blocks), [], seq(z.threads, _ => None), Booting, 0,
              FreshDisk(z.blocks), [FreshDisk(z.blocks)]),
          ColdCache(z.nbuf))
  }

  // The same with the states in between spelled out.
  ghost predicate Path(l: Layout, k: nat, states: seq<State>, steps: seq<Step>) {
    && |states| == |steps| + 1
    && forall i {:trigger PathAt(l, k, states, steps, i)} :: 0 <= i < |steps| ==> PathAt(l, k, states, steps, i)
  }

  ghost predicate PathAt(l: Layout, k: nat, states: seq<State>, steps: seq<Step>, i: nat)
    requires i < |steps| && |states| == |steps| + 1
  {
    && Enabled(l, states[i], steps[i]) && Frugal(k, states[i], steps[i])
    && states[i + 1] == Apply(l, states[i], steps[i])
  }

  ghost predicate Leads(l: Layout, k: nat, z: Size, states: seq<State>, steps: seq<Step>, s: State) {
    Path(l, k, states, steps) && states[0] == Fresh(z) && states[|steps|] == s
  }

  ghost predicate Found(l: Layout, k: nat, z: Size, s: State) {
    exists states, steps :: Leads(l, k, z, states, steps, s)
  }

  lemma Go(l: Layout, k: nat, z: Size, s: State, step: Step)
    requires Found(l, k, z, s) && Enabled(l, s, step) && Frugal(k, s, step)
    ensures Found(l, k, z, Apply(l, s, step))
  {
    var states, steps :| Leads(l, k, z, states, steps, s);
    var states', steps' := states + [Apply(l, s, step)], steps + [step];
    forall i | 0 <= i < |steps'| ensures PathAt(l, k, states', steps', i) {
      if i < |steps| { assert PathAt(l, k, states, steps, i); }
    }
    assert Leads(l, k, z, states', steps', Apply(l, s, step));
  }

  lemma {:induction false} PathRuns(l: Layout, k: nat, states: seq<State>, steps: seq<Step>)
    requires Path(l, k, states, steps)
    ensures ValidRun(l, states[0], steps) && FrugalRun(l, k, states[0], steps)
    ensures After(l, states[0], steps) == states[|steps|]
    decreases |steps|
  {
    if steps != [] {
      assert PathAt(l, k, states, steps, 0);
      var states', steps' := states[1..], steps[1..];
      forall i | 0 <= i < |steps'| ensures PathAt(l, k, states', steps', i) {
        assert PathAt(l, k, states, steps, i + 1);
      }
      PathRuns(l, k, states', steps');
    }
  }

  ghost predicate Fits(l: Layout, z: Size) {
    1 <= l.nlog && l.start + l.nlog <= z.blocks < 0x8000_0000 && z.threads >= 2
  }

  lemma FreshBoots(l: Layout, z: Size)
    requires Fits(l, z)
    ensures Boots(l, Fresh(z)) && HasSize(Fresh(z), z) && Word(Zeroed(), 0) == 0
  {
    assert Word(Zeroed(), 0) == 0;
    assert Header(Zeroed()) == [];
  }

  lemma FoundReached(l: Layout, k: nat, z: Size, s: State)
    requires Fits(l, z) && Found(l, k, z, s)
    ensures Reached(l, k, z, s)
  {
    var states, steps :| Leads(l, k, z, states, steps, s);
    FreshBoots(l, z);
    PathRuns(l, k, states, steps);
    assert RunsTo(l, k, z, states[0], steps, s);
  }

  lemma GoMiss(l: Layout, k: nat, z: Size, s: State, t: nat, i: nat, b: nat)
    requires Found(l, k, z, s) && CanBgetMiss(l, s, t, i, b)
    ensures Found(l, k, z, AfterBgetMiss(l, s, t, i, b))
  {
    Go(l, k, z, s, BgetMiss(t, i, b));
  }

  lemma GoLock(l: Layout, k: nat, z: Size, s: State, t: nat, i: nat)
    requires Found(l, k, z, s) && CanLockBuf(l, s, t, i)
    ensures Found(l, k, z, AfterLockBuf(l, s, t, i))
  {
    Go(l, k, z, s, LockBuf(t, i));
  }

  lemma GoRead(l: Layout, k: nat, z: Size, s: State, t: nat, i: nat)
    requires Found(l, k, z, s) && CanReadDisk(l, s, t, i)
    ensures Found(l, k, z, AfterReadDisk(l, s, t, i))
  {
    Go(l, k, z, s, ReadDisk(t, i));
  }

  lemma GoRelse(l: Layout, k: nat, z: Size, s: State, t: nat, i: nat)
    requires Found(l, k, z, s) && CanBrelse(l, s, t, i)
    ensures Found(l, k, z, AfterBrelse(l, s, t, i))
  {
    Go(l, k, z, s, Brelse(t, i));
  }

  // A buffer locked by thread `t` and read in.
  function LoadedBuf(b: nat, data: Block, t: nat): Buf {
    Buf(Some(b), true, data, 1, {}, Some(t), false)
  }

  // The three steps of bread follow one another.
  lemma BreadSteps(l: Layout, s: State, t: nat, i: nat, b: nat)
    requires CanBgetMiss(l, s, t, i, b) && s.cache[i].holder == None && !s.cache[i].dirty
    ensures var s1 := AfterBgetMiss(l, s, t, i, b);
      CanLockBuf(l, s1, t, i) && var s2 := AfterLockBuf(l, s1, t, i);
      CanReadDisk(l, s2, t, i) && AfterReadDisk(l, s2, t, i) ==
      s.(cache := s.cache[i := LoadedBuf(b, s.log.disk[b], t)])
  {
    var s2 := AfterLockBuf(l, AfterBgetMiss(l, s, t, i, b), t, i);
    assert s2.cache[i].waiters == {};
    assert AfterReadDisk(l, s2, t, i).cache == s.cache[i := LoadedBuf(b, s.log.disk[b], t)];
  }

  // bread of a block that is not cached, into an unreferenced buffer.
  lemma Bread(l: Layout, k: nat, z: Size, s: State, t: nat, i: nat, b: nat)
    requires Found(l, k, z, s) && CanBgetMiss(l, s, t, i, b) && s.cache[i].holder == None && !s.cache[i].dirty
    ensures Found(l, k, z, s.(cache := s.cache[i := LoadedBuf(b, s.log.disk[b], t)]))
  {
    BreadSteps(l, s, t, i, b);
    var s1 := AfterBgetMiss(l, s, t, i, b);
    GoMiss(l, k, z, s, t, i, b);
    GoLock(l, k, z, s1, t, i);
    GoRead(l, k, z, AfterLockBuf(l, s1, t, i), t, i);
  }

  // ----- home blocks -----

  // The j-th block outside the log.
  function HomeAt(l: Layout, j: nat): nat {
    if j < l.start then j else j + l.nlog
  }

  function Homes(l: Layout, n: nat): seq<nat> {
    seq(n, j requires 0 <= j < n => HomeAt(l, j))
  }

  // ----- quiet states: between calls' visits to the cache -----

  // The first `n` home blocks are logged, in buffers of their own; no buffer is locked, and the others are
  // unreferenced.
  ghost predicate Quiet(l: Layout, z: Size, s: State, n: nat, ops: seq<Option<nat>>) {
    && HasSize(s, z) && s.log.phase.Normal? && s.log.lh == Homes(l, n) && s.log.ops == ops
    && |s.log.current| == |s.log.disk|
    && (forall i :: 0 <= i < |s.cache| ==> Rests(l, s.cache[i], n, i))
  }

  ghost predicate Rests(l: Layout, b: Buf, n: nat, i: nat) {
    && b.holder == None && !b.dirty && b.waiters == {} && Unhomed(l, b, n)
    && if i < n then b.valid && b.key == Some(HomeAt(l, i)) else b.refcnt == 0
  }

  ghost predicate Unhomed(l: Layout, b: Buf, n: nat) {
    forall j :: n <= j ==> b.key != Some(HomeAt(l, j))
  }

  ghost predicate QuietFound(l: Layout, k: nat, z: Size, n: nat, ops: seq<Option<nat>>) {
    exists s :: Found(l, k, z, s) && Quiet(l, z, s, n, ops)
  }

  // From power-on to accepting calls, with an empty log.
  lemma BootQuiet(l: Layout, k: nat, z: Size)
    requires Fits(l, z) && z.nbuf > 0
    ensures QuietFound(l, k, z, 0, Empty(z.threads).ops)
  {
    var s0 := Fresh(z);
    assert Leads(l, k, z, [s0], [], s0);
    Bread(l, k, z, s0, 0, 0, l.start);
    var s1 := s0.(cache := s0.cache[0 := LoadedBuf(l.start, Zeroed(), 0)]);
    var s2 := ReplayNothing(l, k, z, s1);
    GoRelse(l, k, z, s2, 0, 0);
    BootedQuiet(l, z, s1, s2);
  }

  lemma BootedQuiet(l: Layout, z: Size, s1: State, s2: State)
    requires z.nbuf > 0 && s1 == Fresh(z).(cache := Fresh(z).cache[0 := LoadedBuf(l.start, Zeroed(), 0)])
    requires Replays(s1, s2) && CanBrelse(l, s2, 0, 0)
    ensures 1 <= l.nlog ==> Quiet(l, z, AfterBrelse(l, s2, 0, 0), 0, Empty(z.threads).ops)
  {
    var s3 := AfterBrelse(l, s2, 0, 0);
    assert Homes(l, 0) == [] && s3.log.ops == Empty(z.threads).ops;
    if 1 <= l.nlog {
      forall i | 0 <= i < |s3.cache| ensures Rests(l, s3.cache[i], 0, i) { }
    }
  }

  // What is left of recovery when the header is empty.
  ghost predicate Replays(s: State, s': State) {
    && s'.log.phase.Normal? && s'.log.lh == [] && s'.log.ops == s.log.ops && s'.log.current == s.log.current
    && |s'.log.disk| == |s.log.disk| && s'.log.committer == 0
    && |s.cache| > 0 && |s'.cache| == |s.cache| && s'.cache == s.cache[0 := s.cache[0].(data := s'.cache[0].data)]
  }

  lemma ReplaySteps(l: Layout, z: Size, s: State) returns (s1: State, s2: State, s': State)
    requires Fits(l, z) && s.log == Fresh(z).log && |s.cache| > 0 && s.cache[0] == LoadedBuf(l.start, Zeroed(), 0)
    ensures CanReadHead(l, s, 0) && s1 == AfterReadHead(l, s, 0) && CanInstalled(l, s1) && s2 == AfterInstalled(l, s1)
    ensures CanClearHead(l, s2, 0) && s' == AfterClearHead(l, s2, 0) && Replays(s, s') && CanBrelse(l, s', 0, 0)
  {
    assert Word(Zeroed(), 0) == 0 && Header(Zeroed()) == [];
    s1 := AfterReadHead(l, s, 0);
    s2 := AfterInstalled(l, s1);
    s' := AfterClearHead(l, s2, 0);
  }

  // recover_from_log with an empty header.
  lemma ReplayNothing(l: Layout, k: nat, z: Size, s: State) returns (s': State)
    requires Found(l, k, z, s) && Fits(l, z) && s.log == Fresh(z).log
    requires |s.cache| > 0 && s.cache[0] == LoadedBuf(l.start, Zeroed(), 0)
    ensures Found(l, k, z, s') && Replays(s, s') && CanBrelse(l, s', 0, 0)
  {
    var s1, s2;
    s1, s2, s' := ReplaySteps(l, z, s);
    Go(l, k, z, s, ReadHead(0));
    Go(l, k, z, s1, Installed);
    Go(l, k, z, s2, ClearHead(0));
  }

  // ----- calls -----

  lemma QuietBegin(l: Layout, k: nat, z: Size, n: nat, ops: seq<Option<nat>>, t: nat)
    requires QuietFound(l, k, z, n, ops) && t < |ops| && ops[t] == None
    requires n + (Outstanding(ops) + 1) * MAXOPBLOCKS <= LOGSIZE
    ensures QuietFound(l, k, z, n, ops[t := Some(0)])
  {
    var s :| Found(l, k, z, s) && Quiet(l, z, s, n, ops);
    Go(l, k, z, s, BeginOp(t));
    assert Quiet(l, z, AfterBeginOp(l, s, t), n, ops[t := Some(0)]);
  }

  lemma QuietEnd(l: Layout, k: nat, z: Size, n: nat, ops: seq<Option<nat>>, t: nat)
    requires QuietFound(l, k, z, n, ops) && t < |ops| && ops[t].Some? && Outstanding(ops[t := None]) > 0
    ensures QuietFound(l, k, z, n, ops[t := None])
  {
    var s :| Found(l, k, z, s) && Quiet(l, z, s, n, ops);
    Go(l, k, z, s, EndOp(t));
    assert Quiet(l, z, AfterEndOp(l, s, t), n, ops[t := None]);
  }

  // The next home block, locked and read in by a thread inside a call.
  lemma NextBlock(l: Layout, k: nat, z: Size, s: State, n: nat, ops: seq<Option<nat>>, t: nat) returns (s': State)
    requires Found(l, k, z, s) && Quiet(l, z, s, n, ops)
    requires t < |ops| && ops[t].Some? && n < z.nbuf && n + l.nlog < z.blocks
    ensures HomeAt(l, n) < z.blocks
    ensures s' == s.(cache := s.cache[n := LoadedBuf(HomeAt(l, n), s.log.disk[HomeAt(l, n)], t)])
    ensures Found(l, k, z, s') && Writing(l, s', t, n)
  {
    var b := HomeAt(l, n);
    assert Rests(l, s.cache[n], n, n);
    forall i | 0 <= i < |s.cache| ensures s.cache[i].key != Some(b) { assert Rests(l, s.cache[i], n, i); }
    Bread(l, k, z, s, t, n, b);
    s' := s.(cache := s.cache[n := LoadedBuf(b, s.log.disk[b], t)]);
  }

  // A block already logged, locked once more.
  lemma OldBlock(l: Layout, k: nat, z: Size, s: State, n: nat, ops: seq<Option<nat>>, t: nat) returns (s': State)
    requires Found(l, k, z, s) && Quiet(l, z, s, n, ops)
    requires t < |ops| && ops[t].Some? && 0 < n && 0 < z.nbuf && l.nlog < z.blocks
    ensures Found(l, k, z, s') && Writing(l, s', t, 0) && s'.log == s.log
  {
    assert Rests(l, s.cache[0], n, 0);
    Go(l, k, z, s, BgetHit(t, 0));
    var s1 := AfterBgetHit(l, s, t, 0);
    GoLock(l, k, z, s1, t, 0);
    s' := AfterLockBuf(l, s1, t, 0);
  }

  // log_write and brelse of the next home block.
  lemma QuietAdd(l: Layout, k: nat, z: Size, n: nat, ops: seq<Option<nat>>, t: nat)
    requires QuietFound(l, k, z, n, ops) && t < |ops| && ops[t].Some? && ops[t].value < k
    requires n < z.nbuf && n + l.nlog < z.blocks && !LogWritePanics(l, n, Outstanding(ops))
    ensures QuietFound(l, k, z, n + 1, ops[t := Some(ops[t].value + 1)])
  {
    var s :| Found(l, k, z, s) && Quiet(l, z, s, n, ops);
    var s1 := NextBlock(l, k, z, s, n, ops, t);
    AddSteps(l, k, z, s, n, ops, t, s1);
    Go(l, k, z, s1, LogWrite(t, n));
    GoRelse(l, k, z, AfterLogWrite(l, s1, t, n), t, n);
  }

  lemma HomesGrow(l: Layout, n: nat)
    ensures HomeAt(l, n) !in Homes(l, n) && Homes(l, n + 1) == Homes(l, n) + [HomeAt(l, n)]
  {
  }

  lemma AddSteps(l: Layout, k: nat, z: Size, s: State, n: nat, ops: seq<Option<nat>>, t: nat, s1: State)
    requires Quiet(l, z, s, n, ops) && t < |ops| && ops[t].Some? && ops[t].value < k
    requires n < z.nbuf && n + l.nlog < z.blocks && !LogWritePanics(l, n, Outstanding(ops))
    requires s1 == s.(cache := s.cache[n := LoadedBuf(HomeAt(l, n), s.log.disk[HomeAt(l, n)], t)])
    ensures CanLogWrite(l, s1, t, n) && Frugal(k, s1, LogWrite(t, n)) && CanBrelse(l, AfterLogWrite(l, s1, t, n), t, n)
    ensures Quiet(l, z, AfterBrelse(l, AfterLogWrite(l, s1, t, n), t, n), n + 1, ops[t := Some(ops[t].value + 1)])
  {
    HomesGrow(l, n);
    var s3 := AfterBrelse(l, AfterLogWrite(l, s1, t, n), t, n);
    forall i | 0 <= i < |s3.cache| ensures Rests(l, s3.cache[i], n + 1, i) {
      assert Rests(l, s.cache[i], n, i);
    }
  }

  // ----- filling the log -----

  // Room on the disk and in the cache for the blocks the log takes, and for at least one.
  ghost predicate Roomy(l: Layout, z: Size) {
    var need := if Limit(l) > 0 then Limit(l) else 1;
    Fits(l, z) && need <= z.nbuf && need + l.nlog <= z.blocks
  }

  // Calls 0 and 1, with the blocks each has added.
  function Calls(threads: nat, a: Option<nat>, b: Option<nat>): seq<Option<nat>>
    requires threads >= 2
  {
    Empty(threads).ops[0 := a][1 := b]
  }

  lemma OpenCalls(threads: nat, a: Option<nat>, b: Option<nat>)
    requires threads >= 2
    ensures Outstanding(Calls(threads, a, b)) == (if a.Some? then 1 else 0) + if b.Some? then 1 else 0
  {
    EmptyOps(0, threads);
    SetOp(0, Empty(threads).ops, 0, a);
    SetOp(0, Empty(threads).ops[0 := a], 1, b);
  }

  // Call 0 stays open with nothing added, while call 1 comes `m` times and adds one block each time.
  lemma {:induction false} Visits(l: Layout, k: nat, z: Size, m: nat)
    requires Roomy(l, z) && k >= 1 && m <= MAXOPBLOCKS && m <= Limit(l)
    ensures QuietFound(l, k, z, m, Calls(z.threads, Some(0), None))
  {
    var n := z.threads;
    if m == 0 {
      BootQuiet(l, k, z);
      OpenCalls(n, None, None);
      assert Calls(n, None, None) == Empty(n).ops;
      QuietBegin(l, k, z, 0, Empty(n).ops, 0);
      assert Empty(n).ops[0 := Some(0)] == Calls(n, Some(0), None);
    } else {
      Visits(l, k, z, m - 1);
      Visit(l, k, z, m - 1);
    }
  }

  lemma Visit(l: Layout, k: nat, z: Size, m: nat)
    requires Roomy(l, z) && k >= 1 && m < MAXOPBLOCKS && m < Limit(l)
    requires QuietFound(l, k, z, m, Calls(z.threads, Some(0), None))
    ensures QuietFound(l, k, z, m + 1, Calls(z.threads, Some(0), None))
  {
    var n := z.threads;
    OpenCalls(n, Some(0), None);
    OpenCalls(n, Some(0), Some(0));
    QuietBegin(l, k, z, m, Calls(n, Some(0), None), 1);
    assert Calls(n, Some(0), None)[1 := Some(0)] == Calls(n, Some(0), Some(0));
    QuietAdd(l, k, z, m, Calls(n, Some(0), Some(0)), 1);
    assert Calls(n, Some(0), Some(0))[1 := Some(1)] == Calls(n, Some(0), Some(1));
    assert Calls(n, Some(0), Some(1))[1 := None] == Calls(n, Some(0), None);
    QuietEnd(l, k, z, m + 1, Calls(n, Some(0), Some(1)), 1);
  }

  // Call 1 comes to stay.
  lemma Settle(l: Layout, k: nat, z: Size)
    requires Roomy(l, z) && 1 <= k && MAXOPBLOCKS <= Limit(l)
    ensures QuietFound(l, k, z, MAXOPBLOCKS, Calls(z.threads, Some(0), Some(0)))
  {
    Visits(l, k, z, MAXOPBLOCKS);
    OpenCalls(z.threads, Some(0), None);
    QuietBegin(l, k, z, MAXOPBLOCKS, Calls(z.threads, Some(0), None), 1);
    assert Calls(z.threads, Some(0), None)[1 := Some(0)] == Calls(z.threads, Some(0), Some(0));
  }

  lemma SpendFirst(l: Layout, k: nat, z: Size, n: nat, a: nat, b: nat)
    requires Roomy(l, z) && a < k && n < Limit(l) && QuietFound(l, k, z, n, Calls(z.threads, Some(a), Some(b)))
    ensures QuietFound(l, k, z, n + 1, Calls(z.threads, Some(a + 1), Some(b)))
  {
    OpenCalls(z.threads, Some(a), Some(b));
    QuietAdd(l, k, z, n, Calls(z.threads, Some(a), Some(b)), 0);
    assert Calls(z.threads, Some(a), Some(b))[0 := Some(a + 1)] == Calls(z.threads, Some(a + 1), Some(b));
  }

  lemma SpendSecond(l: Layout, k: nat, z: Size, n: nat, a: nat, b: nat)
    requires Roomy(l, z) && b < k && n < Limit(l) && QuietFound(l, k, z, n, Calls(z.threads, Some(a), Some(b)))
    ensures QuietFound(l, k, z, n + 1, Calls(z.threads, Some(a), Some(b + 1)))
  {
    OpenCalls(z.threads, Some(a), Some(b));
    QuietAdd(l, k, z, n, Calls(z.threads, Some(a), Some(b)), 1);
    assert Calls(z.threads, Some(a), Some(b))[1 := Some(b + 1)] == Calls(z.threads, Some(a), Some(b + 1));
  }

  // Both calls spend their budgets, call 0 first.
  lemma {:induction false} Spend(l: Layout, k: nat, z: Size, a: nat, b: nat)
    requires Roomy(l, z) && 1 <= k && a <= k && b <= k && MAXOPBLOCKS + a + b <= Limit(l)
    ensures QuietFound(l, k, z, MAXOPBLOCKS + a + b, Calls(z.threads, Some(a), Some(b)))
    decreases a + b
  {
    if b > 0 {
      Spend(l, k, z, a, b - 1);
      SpendSecond(l, k, z, MAXOPBLOCKS + a + b - 1, a, b - 1);
    } else if a > 0 {
      Spend(l, k, z, a - 1, 0);
      SpendFirst(l, k, z, MAXOPBLOCKS + a - 1, a - 1, 0);
    } else {
      Settle(l, k, z);
    }
  }

  // Calls that add at most `k` blocks can bring the log to its limit.
  lemma FillsLog(l: Layout, k: nat, z: Size) returns (ops: seq<Option<nat>>)
    requires Roomy(l, z) && 1 <= k && Limit(l) <= MAXOPBLOCKS + 2 * k
    ensures QuietFound(l, k, z, Limit(l), ops) && |ops| == z.threads && ops[0].Some?
  {
    var m := Limit(l);
    if m <= MAXOPBLOCKS {
      Visits(l, k, z, m);
      ops := Calls(z.threads, Some(0), None);
    } else {
      var a := if m - MAXOPBLOCKS <= k then m - MAXOPBLOCKS else k;
      Spend(l, k, z, a, m - MAXOPBLOCKS - a);
      ops := Calls(z.threads, Some(a), Some(m - MAXOPBLOCKS - a));
    }
  }

  // ----- when can log_write panic? -----

  // Thread `t` is about to call log_write on a buffer it has locked, and the call panics.
  ghost predicate PanicsAt(l: Layout, s: State, t: nat, i: nat) {
    Writing(l, s, t, i) && LogWritePanics(l, |s.log.lh|, Outstanding(s.log.ops))
  }

  ghost predicate CanPanic(l: Layout, k: nat, z: Size) {
    exists s, t, i :: Reached(l, k, z, s) && PanicsAt(l, s, t, i)
  }

  lemma PanicIfFull(l: Layout, k: nat, z: Size)
    requires Roomy(l, z) && 1 <= k && Limit(l) <= MAXOPBLOCKS + 2 * k
    ensures CanPanic(l, k, z)
  {
    var n := Limit(l);
    var ops := FillsLog(l, k, z);
    var s :| Found(l, k, z, s) && Quiet(l, z, s, n, ops);
    var s';
    if n == 0 {
      s' := NextBlock(l, k, z, s, n, ops, 0);
    } else {
      s' := OldBlock(l, k, z, s, n, ops, 0);
    }
    assert PanicsAt(l, s', 0, 0);
    FoundReached(l, k, z, s');
  }

  lemma {:induction false} RunKeepsSize(l: Layout, s: State, steps: seq<Step>, z: Size)
    requires ValidRun(l, s, steps) && HasSize(s, z)
    ensures HasSize(After(l, s, steps), z)
    decreases |steps|
  {
    if steps != [] { RunKeepsSize(l, Apply(l, s, steps[0]), steps[1..], z); }
  }

  // The keys of the first `n` buffers.
  ghost function Keys(cache: seq<Buf>, n: nat): set<nat>
    requires n <= |cache|
  {
    if n == 0 then {}
    else Keys(cache, n - 1) + if cache[n - 1].key.Some? then {cache[n - 1].key.value} else {}
  }

  lemma {:induction false} KeysBounded(cache: seq<Buf>, n: nat)
    requires n <= |cache|
    ensures |Keys(cache, n)| <= n && forall i :: 0 <= i < n && cache[i].key.Some? ==>
      cache[i].key.value in Keys(cache, n)
  {
    if n > 0 { KeysBounded(cache, n - 1); }
  }

  // Every logged block has a buffer and a home of its own.
  lemma LogFits(l: Layout, s: State)
    requires Inv(l, s) && s.log.phase.Normal?
    ensures |s.log.lh| <= |s.cache| && |s.log.lh| + l.nlog <= |s.log.disk|
  {
    var lh := s.log.lh;
    DistinctSize(lh);
    KeysBounded(s.cache, |s.cache|);
    forall b | b in Elems(lh) ensures b in Keys(s.cache, |s.cache|) { assert Cached(s.cache, b); }
    SubsetSize(Elems(lh), Keys(s.cache, |s.cache|));
    HomesFit(l, s.log.disk, lh);
  }

  lemma HomesFit(l: Layout, d: Disk, lh: seq<nat>)
    requires GoodLayout(l, d) && GoodList(l, d, lh)
    ensures |lh| + l.nlog <= |d|
  {
    var all, log := Span(0, |d|), Span(l.start, l.start + l.nlog);
    DistinctSize(lh);
    SpanSize(0, |d|);
    SpanSize(l.start, l.start + l.nlog);
    forall b | b in Elems(lh) + log ensures b in all {
      assert b in lh ==> Home(l, d, b);
      assert InSpan(0, |d|, b);
    }
    assert Elems(lh) !! log by {
      forall b | b in Elems(lh) ensures b !in log { assert Home(l, d, b); }
    }
    SubsetSize(Elems(lh) + log, all);
  }

  lemma PanicMeansRoom(l: Layout, k: nat, z: Size, s: State, t: nat, i: nat)
    requires Fits(l, z) && 1 <= k <= MAXOPBLOCKS && Reached(l, k, z, s) && PanicsAt(l, s, t, i)
    ensures Roomy(l, z) && Limit(l) <= MAXOPBLOCKS + 2 * k
  {
    var s0, steps :| RunsTo(l, k, z, s0, steps, s);
    BootsInv(l, s0);
    RunKeepsInv(l, s0, steps);
    RunKeepsSize(l, s0, steps, z);
    LogFits(l, s);
    if Outstanding(s.log.ops) == 0 { NoneOutstanding(s.log.ops); }
    HomeBlock(l, s.log.disk, s.cache[i].key.value);
    if MAXOPBLOCKS + 2 * k < Limit(l) {
      LogWriteNeverPanics(l, k, s0, steps, t);
    }
  }

  // A home block leaves room for the log beside it.
  lemma HomeBlock(l: Layout, d: Disk, b: nat)
    requires GoodLayout(l, d) && Home(l, d, b)
    ensures l.nlog < |d|
  {
  }

  /**
   The exact answer: with calls that add at most `k` blocks, some run of the protocol
   drives log_write into "too big a transaction" if and only if the limit is no more
   than MAXOPBLOCKS + 2k and disk and cache have room for that many blocks.  With
   mkfs's log of LOGSIZE blocks and NBUF buffers that is k = MAXOPBLOCKS.
   */
  lemma LogWritePanicsExactly(l: Layout, k: nat, z: Size)
    requires 1 <= k <= MAXOPBLOCKS && Fits(l, z)
    ensures CanPanic(l, k, z) <==> Limit(l) <= MAXOPBLOCKS + 2 * k && Roomy(l, z)
    ensures l.nlog == LOGSIZE && z.nbuf >= LruCache.NBUF && z.blocks >= 2 * LOGSIZE ==>
      (CanPanic(l, k, z) <==> k == MAXOPBLOCKS)
  {
    if Limit(l) <= MAXOPBLOCKS + 2 * k && Roomy(l, z) {
      PanicIfFull(l, k, z);
    } else if CanPanic(l, k, z) {
      var s, t, i :| Reached(l, k, z, s) && PanicsAt(l, s, t, i);
      PanicMeansRoom(l, k, z, s, t, i);
    }
  }
}
