/**
 Whole runs of the log protocol, from boot, through any interleaving of file
 system calls, commits, crashes and recoveries.
 */
module LogRuns {
  import opened Common
  import opened Bytes
  import opened LogProtocol
  import opened LogSafety

  // Boot from any disk whose log header is well formed; `h` is what the log there stands for.
  ghost predicate Boots(l: Layout, s: State) {
    && Shape(l, s.log) && s.log.phase.Booting?
    && s.log.history == [s.log.current] && RecoversTo(l, s.log.disk, s.log.current)
    && s.cache == ColdCache(|s.cache|)
  }

  ghost predicate ValidRun(l: Layout, s: State, steps: seq<Step>)
    decreases |steps|
  {
    steps == [] || (Enabled(l, s, steps[0]) && ValidRun(l, Apply(l, s, steps[0]), steps[1..]))
  }

  ghost function After(l: Layout, s: State, steps: seq<Step>): State
    requires ValidRun(l, s, steps)
    decreases |steps|
  {
    if steps == [] then s else After(l, Apply(l, s, steps[0]), steps[1..])
  }

  lemma BootsInv(l: Layout, s: State)
    requires Boots(l, s)
    ensures Inv(l, s)
  {
  }

  lemma {:induction false} RunKeepsInv(l: Layout, s: State, steps: seq<Step>)
    requires Inv(l, s) && ValidRun(l, s, steps)
    ensures Inv(l, After(l, s, steps))
    decreases |steps|
  {
    if steps != [] {
      StepKeepsInv(l, s, steps[0]);
      RunKeepsInv(l, Apply(l, s, steps[0]), steps[1..]);
    }
  }

  // ----- crash atomicity -----

  // recover_from_log's copy loop, run to its end on disk `d`.
  ghost function Replay(l: Layout, d: Disk, k: nat): Disk
    requires GoodLayout(l, d) && GoodHeader(l, d) && k <= |Header(d[l.start])|
    ensures |Replay(l, d, k)| == |d|
  {
    ReplayList(l, d, Header(d[l.start]), k)
  }

  ghost function ReplayList(l: Layout, d: Disk, hdr: seq<nat>, k: nat): Disk
    requires GoodLayout(l, d) && GoodList(l, d, hdr) && k <= |hdr|
    ensures |ReplayList(l, d, hdr, k)| == |d|
  {
    if k == 0 then d else ReplayList(l, d, hdr, k - 1)[hdr[k - 1] := ReplayList(l, d, hdr, k - 1)[l.start + k]]
  }

  // `b` is among the first `k` of the list.
  predicate Listed(hdr: seq<nat>, k: nat, b: nat) {
    k <= |hdr| && b in hdr[..k]
  }

  // `r` is `d` with the first `k` blocks of the list copied in from the slots at `first`.
  ghost predicate Replayed(d: Disk, r: Disk, hdr: seq<nat>, first: nat, k: nat) {
    && |r| == |d| && k <= |hdr| && first + k <= |d|
    && (forall b: nat {:trigger Listed(hdr, k, b)} :: b < |d| && !Listed(hdr, k, b) ==> r[b] == d[b])
    && (forall j :: 0 <= j < k && hdr[j] < |r| ==> r[hdr[j]] == d[first + j])
  }

  lemma ReplayNext(d: Disk, r: Disk, hdr: seq<nat>, first: nat, k: nat)
    requires Replayed(d, r, hdr, first, k) && k < |hdr| && Distinct(hdr) && first + k < |d| && hdr[k] < |d|
    requires first + k !in hdr
    ensures Replayed(d, r[hdr[k] := r[first + k]], hdr, first, k + 1)
  {
    var r' := r[hdr[k] := r[first + k]];
    assert hdr[..k + 1] == hdr[..k] + [hdr[k]];
    assert !Listed(hdr, k, first + k);
    forall b: nat | b < |d| && !Listed(hdr, k + 1, b) ensures r'[b] == d[b] {
      assert !Listed(hdr, k, b);
    }
  }

  // The list names home blocks, not log slots.
  lemma SlotNotListed(l: Layout, d: Disk, hdr: seq<nat>, j: nat)
    requires GoodLayout(l, d) && GoodList(l, d, hdr) && j < |hdr|
    ensures l.start + 1 + j !in hdr && l.start + 1 + j < |d| && hdr[j] < |d|
  {
    assert InLog(l, l.start + 1 + j);
    assert forall i :: 0 <= i < |hdr| ==> Home(l, d, hdr[i]);
  }

  lemma {:induction false} ReplayAt(l: Layout, d: Disk, hdr: seq<nat>, k: nat)
    requires GoodLayout(l, d) && GoodList(l, d, hdr) && k <= |hdr|
    ensures Replayed(d, ReplayList(l, d, hdr, k), hdr, l.start + 1, k)
  {
    if k == 0 {
      assert ReplayList(l, d, hdr, k) == d;
    } else {
      var r := ReplayList(l, d, hdr, k - 1);
      ReplayAt(l, d, hdr, k - 1);
      SlotNotListed(l, d, hdr, k - 1);
      ReplayNext(d, r, hdr, l.start + 1, k - 1);
      assert ReplayList(l, d, hdr, k) == r[hdr[k - 1] := r[l.start + k]];
    }
  }

  // The two accounts of recovery agree: the copy loop and the block-by-block description.
  lemma ReplayMeetsRecoversTo(l: Layout, d: Disk, h: Disk)
    requires GoodLayout(l, d) && GoodHeader(l, d) && |h| == |d|
    ensures RecoversTo(l, d, h) <==> SameHome(l, Replay(l, d, |Header(d[l.start])|), h)
  {
    var hdr := Header(d[l.start]);
    ReplayAt(l, d, hdr, |hdr|);
    assert hdr[..|hdr|] == hdr;
    PointwiseReplay(l, d, hdr, Replay(l, d, |hdr|), h);
  }

  lemma PointwiseReplay(l: Layout, d: Disk, hdr: seq<nat>, r: Disk, h: Disk)
    requires GoodLayout(l, d) && GoodList(l, d, hdr) && |h| == |d| && Replayed(d, r, hdr, l.start + 1, |hdr|)
    ensures RecoversBy(l, d, hdr, h) <==> SameHome(l, r, h)
  {
    assert hdr[..|hdr|] == hdr;
    if SameHome(l, r, h) {
      forall j | 0 <= j < |hdr| ensures d[l.start + 1 + j] == h[hdr[j]] {
        assert Home(l, r, hdr[j]);
      }
      forall b: nat | Home(l, d, b) && b !in hdr ensures d[b] == h[b] {
        assert Home(l, r, b) && !Listed(hdr, |hdr|, b);
      }
    }
    if RecoversBy(l, d, hdr, h) {
      forall b: nat | Home(l, r, b) ensures r[b] == h[b] {
        assert Listed(hdr, |hdr|, b) <==> b in hdr;
      }
    }
  }

  /**
   Crash atomicity: stop any run anywhere, replay the log found on disk, and the
   home blocks are exactly those of the last group transaction whose header
   write completed -- also when the run itself contains crashes and partial recoveries.
   */
  lemma CrashAtomicity(l: Layout, s: State, steps: seq<Step>)
    requires Boots(l, s) && ValidRun(l, s, steps)
    ensures var g := After(l, s, steps).log;
      && Shape(l, g)
      && SameHome(l, Replay(l, g.disk, |Header(g.disk[l.start])|), Last(g))
  {
    BootsInv(l, s);
    RunKeepsInv(l, s, steps);
    var g := After(l, s, steps).log;
    ReplayMeetsRecoversTo(l, g.disk, Last(g));
  }

  // Number of header writes that committed a transaction.
  ghost function Commits(steps: seq<Step>): nat {
    if steps == [] then 0 else (if steps[0].WriteHead? then 1 else 0) + Commits(steps[1..])
  }

  lemma StepGrowsHistory(l: Layout, s: State, step: Step)
    requires Enabled(l, s, step)
    ensures Apply(l, s, step).log.history == s.log.history + if step.WriteHead? then [s.log.current] else []
  {
  }

  /** Commits are never lost: the history only grows, once per completed header write, over any run. */
  lemma {:induction false} HistoryGrows(l: Layout, s: State, steps: seq<Step>)
    requires Inv(l, s) && ValidRun(l, s, steps)
    ensures s.log.history <= After(l, s, steps).log.history
    ensures |After(l, s, steps).log.history| == |s.log.history| + Commits(steps)
    decreases |steps|
  {
    if steps != [] {
      StepKeepsInv(l, s, steps[0]);
      StepGrowsHistory(l, s, steps[0]);
      HistoryGrows(l, Apply(l, s, steps[0]), steps[1..]);
    }
  }

  /** Once the machine accepts file system calls, the home blocks hold the last committed state. */
  lemma RecoveryRestores(l: Layout, s: State, steps: seq<Step>)
    requires Boots(l, s) && ValidRun(l, s, steps)
    ensures var g := After(l, s, steps).log;
      g.history != [] && (g.phase.Normal? ==> SameHome(l, g.disk, Last(g)))
  {
    BootsInv(l, s);
    RunKeepsInv(l, s, steps);
  }

  // ----- cache plus log refine a plain block map -----

  // The specification: a block map, and the copy a crash falls back to.
  datatype Plain = Plain(blocks: Disk, saved: Disk)

  datatype PlainOp = Put(b: nat, data: Block) | Save | Restore

  function PlainApply(p: Plain, op: PlainOp): Plain {
    match op
    case Put(b, data) => if b < |p.blocks| then p.(blocks := p.blocks[b := data]) else p
    case Save => p.(saved := p.blocks)
    case Restore => p.(blocks := p.saved)
  }

  function PlainRun(p: Plain, ops: seq<PlainOp>): Plain
    decreases |ops|
  {
    if ops == [] then p else PlainRun(PlainApply(p, ops[0]), ops[1..])
  }

  // What a step means to the block map; cache traffic and disk transfers mean nothing.
  function Meaning(s: State, step: Step): Option<PlainOp> {
    match step
    case LogWrite(t, i) =>
      if i < |s.cache| && s.cache[i].key.Some? then Some(Put(s.cache[i].key.value, s.cache[i].data)) else None
    case WriteHead(_) => Some(Save)
    case Crash(_) => Some(Restore)
    case _ => None
  }

  ghost function Trace(l: Layout, s: State, steps: seq<Step>): seq<PlainOp>
    requires ValidRun(l, s, steps)
    decreases |steps|
  {
    if steps == [] then [] else
      var rest := Trace(l, Apply(l, s, steps[0]), steps[1..]);
      match Meaning(s, steps[0])
      case None => rest
      case Some(op) => [op] + rest
  }

  ghost function PlainOf(s: State): Plain
    requires s.log.history != []
  {
    Plain(s.log.current, Last(s.log))
  }

  lemma StepRefines(l: Layout, s: State, step: Step)
    requires s.log.history != [] && |s.log.current| == |s.log.disk| && Enabled(l, s, step)
    ensures Apply(l, s, step).log.history != []
    ensures PlainOf(Apply(l, s, step)) ==
      match Meaning(s, step)
      case None => PlainOf(s)
      case Some(op) => PlainApply(PlainOf(s), op)
  {
  }

  lemma {:induction false} RunRefines(l: Layout, s: State, steps: seq<Step>)
    requires Inv(l, s) && ValidRun(l, s, steps)
    ensures After(l, s, steps).log.history != []
    ensures PlainOf(After(l, s, steps)) == PlainRun(PlainOf(s), Trace(l, s, steps))
    decreases |steps|
  {
    if steps != [] {
      var s1 := Apply(l, s, steps[0]);
      StepKeepsInv(l, s, steps[0]);
      StepRefines(l, s, steps[0]);
      RunRefines(l, s1, steps[1..]);
      var m, rest := Meaning(s, steps[0]), Trace(l, s1, steps[1..]);
      assert m.Some? ==> ([m.value] + rest)[1..] == rest;
    }
  }

  /**
   After any run, a buffer that bread has returned and its caller has not yet
   changed holds the block map's contents, whatever was recycled, committed or
   lost in between.
   */
  lemma BreadReadsBlockMap(l: Layout, s: State, steps: seq<Step>, t: nat, i: nat, b: nat)
    requires Boots(l, s) && ValidRun(l, s, steps)
    requires var s' := After(l, s, steps);
      && Locked(s', t, i) && s'.cache[i].valid && !s'.cache[i].dirty
      && s'.cache[i].key == Some(b) && Home(l, s'.log.disk, b) && !Recovering(s'.log)
    ensures var p := PlainRun(PlainOf(s), Trace(l, s, steps));
      b < |p.blocks| && After(l, s, steps).cache[i].data == p.blocks[b]
  {
    BootsInv(l, s);
    RunKeepsInv(l, s, steps);
    RunRefines(l, s, steps);
    var s' := After(l, s, steps);
    assert GoodData(l, ViewOf(l, s'.log), s'.cache[i]);
  }

  /** A transaction commits only between file system calls, so it holds whole calls. */
  lemma CommitsWholeCalls(l: Layout, s: State, steps: seq<Step>, h: nat)
    requires Boots(l, s) && ValidRun(l, s, steps) && Enabled(l, After(l, s, steps), WriteHead(h))
    ensures forall t :: 0 <= t < |After(l, s, steps).log.ops| ==> After(l, s, steps).log.ops[t].None?
  {
    BootsInv(l, s);
    RunKeepsInv(l, s, steps);
  }

  /** A home block changes on disk only once a header naming it is there, and only to its logged contents. */
  lemma NoHomeWriteBeforeCommit(l: Layout, s: State, steps: seq<Step>, step: Step, b: nat)
    requires Boots(l, s) && ValidRun(l, s, steps) && Enabled(l, After(l, s, steps), step)
    requires Home(l, After(l, s, steps).log.disk, b)
    ensures var g, g' := After(l, s, steps).log, Apply(l, After(l, s, steps), step).log;
      && Shape(l, g) && |g'.disk| == |g.disk|
      && (g'.disk[b] != g.disk[b] ==> b in Header(g.disk[l.start]) && g'.disk[b] == Last(g)[b])
  {
    BootsInv(l, s);
    RunKeepsInv(l, s, steps);
    var s' := After(l, s, steps);
    HomeWrite(l, s', step, b);
  }

  lemma HomeWrite(l: Layout, s: State, step: Step, b: nat)
    requires Inv(l, s) && Enabled(l, s, step) && Home(l, s.log.disk, b)
    ensures var g, g' := s.log, Apply(l, s, step).log;
      && |g'.disk| == |g.disk|
      && (g'.disk[b] != g.disk[b] ==> b in Header(g.disk[l.start]) && g'.disk[b] == Last(g)[b])
  {
    if step.InstallBlock? {
      InstallWritesLogged(l, s, step.lb, step.db, b);
    } else {
      OtherStepsKeepHome(l, s, step, b);
    }
  }

  // What install_trans finds in the log is the committed contents of a block the header names.
  lemma SlotIsCommitted(l: Layout, g: Log)
    requires MayInstall(l, g) && RecoversTo(l, g.disk, Last(g))
    ensures var (k, slot) := (g.lh[g.phase.tail], l.start + 1 + g.phase.tail);
      k in Header(g.disk[l.start]) && k < |g.disk| && slot < |g.disk| && InLog(l, slot) && g.disk[slot] == Last(g)[k]
  {
  }

  lemma InstallWritesLogged(l: Layout, s: State, lb: nat, db: nat, b: nat)
    requires Inv(l, s) && CanInstallBlock(l, s, lb, db) && Home(l, s.log.disk, b)
    ensures var g, g' := s.log, AfterInstallBlock(l, s, lb, db).log;
      && |g'.disk| == |g.disk|
      && (g'.disk[b] != g.disk[b] ==> b in Header(g.disk[l.start]) && g'.disk[b] == Last(g)[b])
  {
    SlotIsCommitted(l, s.log);
    assert GoodData(l, ViewOf(l, s.log), s.cache[lb]);
  }

  lemma OtherStepsKeepHome(l: Layout, s: State, step: Step, b: nat)
    requires Shape(l, s.log) && Enabled(l, s, step) && !step.InstallBlock? && Home(l, s.log.disk, b)
    ensures var g, g' := s.log, Apply(l, s, step).log;
      |g'.disk| == |g.disk| && g'.disk[b] == g.disk[b]
  {
  }

  /** A logged block sits, read in, in a referenced buffer, which bget therefore never recycles. */
  lemma LoggedStaysCached(l: Layout, s: State, steps: seq<Step>, b: nat)
    requires Boots(l, s) && ValidRun(l, s, steps) && b in Pinned(After(l, s, steps).log)
    ensures var cache := After(l, s, steps).cache;
      && Cached(cache, b)
      && forall i :: 0 <= i < |cache| && cache[i].key == Some(b) ==> cache[i].valid && cache[i].refcnt > 0
  {
    BootsInv(l, s);
    RunKeepsInv(l, s, steps);
    var s' := After(l, s, steps);
    LoggedIsReferenced(l, ViewOf(l, s'.log), s'.cache, b);
  }

  lemma LoggedIsReferenced(l: Layout, v: View, cache: seq<Buf>, b: nat)
    requires |v.current| == |v.disk| && GoodCache(l, v, cache) && b in v.pinned
    ensures Cached(cache, b)
    ensures forall i :: 0 <= i < |cache| && cache[i].key == Some(b) ==> cache[i].valid && cache[i].refcnt > 0
  {
    forall i | 0 <= i < |cache| && cache[i].key == Some(b) ensures cache[i].valid && cache[i].refcnt > 0 {
      assert GoodCount(v, cache[i]) && Cached(cache, b);
      var k :| 0 <= k < |cache| && cache[k].key == Some(b) && cache[k].valid;
    }
  }
}
