/** What every step of the log protocol keeps: cache actions, commits, recovery and crashes. */
module LogSafety {
  import opened Common
  import opened Bytes
  import opened LogProtocol

  function Last(g: Log): Disk
    requires g.history != []
  {
    g.history[|g.history| - 1]
  }

  ghost predicate Shape(l: Layout, g: Log) {
    && GoodLayout(l, g.disk) && GoodHeader(l, g.disk)
    && |g.current| == |g.disk| && g.history != [] && |Last(g)| == |g.disk|
    && GoodList(l, g.disk, g.lh)
    && g.committer < |g.ops|
    && (forall t :: 0 <= t < |g.ops| && g.ops[t].Some? ==> g.phase.Normal?)
    && GoodPhase(g.phase, g.lh, Header(g.disk[l.start]))
  }

  // How the in-memory list and the on-disk header relate in each phase.
  ghost predicate GoodPhase(p: Phase, lh: seq<nat>, hdr: seq<nat>) {
    match p
    case Normal => hdr == []
    case WritingLog(t) => hdr == [] && t <= |lh|
    case WritingHead => hdr == []
    case Installing(t) => hdr == lh && t <= |lh|
    case ClearingHead => lh == []
    case Finishing => lh == [] && hdr == []
    case Booting => lh == []
    case Replaying(t) => hdr == lh && t <= |lh|
    case EndingReplay => lh == []
  }

  // What the condition on a buffer depends on.
  datatype View = View(disk: Disk, current: Disk, ops: seq<Option<nat>>, pinned: seq<nat>, stale: seq<nat>)

  ghost function ViewOf(l: Layout, g: Log): View
    requires Shape(l, g)
  {
    View(g.disk, g.current, g.ops, Pinned(g), Stale(l, g))
  }

  // Reference counts add up: waiters, the lock holder and the log's pin.
  ghost predicate GoodCount(v: View, b: Buf) {
    && (b.holder.Some? ==> b.holder.value !in b.waiters)
    && (b.holder.Some? || b.waiters != {} ==> b.key.Some?)
    && (b.key.Some? ==> b.key.value < |v.disk|)
    && (b.dirty ==> b.holder.Some? && b.valid)
    && b.refcnt == |b.waiters| + (if b.holder.Some? then 1 else 0)
                   + (if b.key.Some? && b.key.value in v.pinned then 1 else 0)
  }

  // The contents of buffer `b` are the ones the block map prescribes.
  ghost predicate GoodData(l: Layout, v: View, b: Buf)
    requires |v.current| == |v.disk|
  {
    b.valid && b.key.Some? && b.key.value < |v.disk| ==>
      if InLog(l, b.key.value) then
        !b.dirty && b.data == v.disk[b.key.value]
      else if b.dirty then
        b.holder.Some? && b.holder.value < |v.ops| && v.ops[b.holder.value].Some?
      else if b.key.value in v.stale then
        b.data == v.disk[b.key.value]
      else
        b.data == v.current[b.key.value]
  }

  ghost predicate UniqueKeys(cache: seq<Buf>) {
    forall i, j :: 0 <= i < j < |cache| && cache[i].key.Some? ==> cache[i].key != cache[j].key
  }

  ghost predicate Cached(cache: seq<Buf>, b: nat) {
    exists i :: 0 <= i < |cache| && cache[i].key == Some(b) && cache[i].valid
  }

  ghost predicate GoodCache(l: Layout, v: View, cache: seq<Buf>)
    requires |v.current| == |v.disk|
  {
    && UniqueKeys(cache)
    && (forall i :: 0 <= i < |cache| ==> GoodCount(v, cache[i]))
    && (forall i :: 0 <= i < |cache| ==> GoodData(l, v, cache[i]))
    && (forall b :: b in v.pinned ==> Cached(cache, b))
  }

  // A home copy lags behind only while its block is pinned or awaits replay.
  ghost predicate Flushed(l: Layout, v: View)
    requires |v.current| == |v.disk|
  {
    forall b: nat :: Home(l, v.disk, b) && b !in v.pinned && b !in v.stale ==> v.disk[b] == v.current[b]
  }

  // The first `n` log slots hold the current contents of the first `n` logged blocks.
  ghost predicate Copied(l: Layout, g: Log, n: nat)
    requires Shape(l, g) && n <= |g.lh|
  {
    forall j :: 0 <= j < n ==> g.disk[l.start + 1 + j] == g.current[g.lh[j]]
  }

  ghost predicate Durable(l: Layout, g: Log)
    requires Shape(l, g)
  {
    && RecoversTo(l, g.disk, Last(g))
    && (g.phase.WritingLog? ==> Copied(l, g, g.phase.tail))
    && (g.phase.WritingHead? ==> Copied(l, g, |g.lh|))
    && (g.phase.Installing? || g.phase.ClearingHead? || g.phase.Finishing? || Recovering(g) ==>
          SameHome(l, g.current, Last(g)))
  }

  ghost predicate Inv(l: Layout, s: State) {
    && Shape(l, s.log) && Durable(l, s.log)
    && Flushed(l, ViewOf(l, s.log)) && GoodCache(l, ViewOf(l, s.log), s.cache)
  }

  // ----- steps that touch one buffer and nothing else -----

  lemma ReplaceBuf(l: Layout, v: View, cache: seq<Buf>, i: nat, b: Buf)
    requires |v.current| == |v.disk| && GoodCache(l, v, cache) && i < |cache|
    requires GoodCount(v, b) && GoodData(l, v, b)
    requires b.key == cache[i].key || forall j :: 0 <= j < |cache| ==> cache[j].key != b.key
    requires cache[i].key.Some? && cache[i].key.value in v.pinned && cache[i].valid ==> b.key == cache[i].key && b.valid
    ensures GoodCache(l, v, cache[i := b])
  {
    var cache' := cache[i := b];
    forall p | p in v.pinned ensures Cached(cache', p) {
      assert Cached(cache, p);
      var k :| 0 <= k < |cache| && cache[k].key == Some(p) && cache[k].valid;
      assert cache'[k].key == Some(p) && cache'[k].valid;
    }
  }

  lemma ReplaceOne(l: Layout, s: State, i: nat, b: Buf)
    requires Inv(l, s) && i < |s.cache|
    requires var v := ViewOf(l, s.log);
      && GoodCount(v, b) && GoodData(l, v, b)
      && (b.key == s.cache[i].key || forall j :: 0 <= j < |s.cache| ==> s.cache[j].key != b.key)
      && (s.cache[i].key.Some? && s.cache[i].key.value in v.pinned && s.cache[i].valid ==>
            b.key == s.cache[i].key && b.valid)
    ensures Inv(l, State(s.log, s.cache[i := b]))
  {
    ReplaceBuf(l, ViewOf(l, s.log), s.cache, i, b);
  }

  lemma BgetHitStep(l: Layout, s: State, t: nat, i: nat)
    requires Inv(l, s) && CanBgetHit(l, s, t, i)
    ensures Inv(l, AfterBgetHit(l, s, t, i))
  {
    var b := s.cache[i];
    assert GoodCount(ViewOf(l, s.log), b) && GoodData(l, ViewOf(l, s.log), b);
    assert |b.waiters + {t}| == |b.waiters| + 1;
    ReplaceOne(l, s, i, b.(refcnt := b.refcnt + 1, waiters := b.waiters + {t}));
  }

  lemma BgetMissStep(l: Layout, s: State, t: nat, i: nat, k: nat)
    requires Inv(l, s) && CanBgetMiss(l, s, t, i, k)
    ensures Inv(l, AfterBgetMiss(l, s, t, i, k))
  {
    var b := s.cache[i];
    var v := ViewOf(l, s.log);
    assert GoodCount(v, b);
    assert k in v.pinned ==> Cached(s.cache, k);
    ReplaceOne(l, s, i, b.(key := Some(k), valid := false, refcnt := 1, waiters := {t}));
  }

  lemma LockBufStep(l: Layout, s: State, t: nat, i: nat)
    requires Inv(l, s) && CanLockBuf(l, s, t, i)
    ensures Inv(l, AfterLockBuf(l, s, t, i))
  {
    var b := s.cache[i];
    ReplaceOne(l, s, i, b.(waiters := b.waiters - {t}, holder := Some(t)));
  }

  lemma ReadDiskStep(l: Layout, s: State, t: nat, i: nat)
    requires Inv(l, s) && CanReadDisk(l, s, t, i)
    ensures Inv(l, AfterReadDisk(l, s, t, i))
  {
    var b := s.cache[i];
    var v := ViewOf(l, s.log);
    assert GoodCount(v, b);
    assert b.key.value in v.pinned ==> Cached(s.cache, b.key.value);
    ReplaceOne(l, s, i, b.(valid := true, data := s.log.disk[b.key.value]));
  }

  lemma ModifyStep(l: Layout, s: State, t: nat, i: nat, data: Block)
    requires Inv(l, s) && CanModify(l, s, t, i, data)
    ensures Inv(l, AfterModify(l, s, t, i, data))
  {
    ReplaceOne(l, s, i, s.cache[i].(data := data, dirty := true));
  }

  lemma BrelseStep(l: Layout, s: State, t: nat, i: nat)
    requires Inv(l, s) && CanBrelse(l, s, t, i)
    ensures Inv(l, AfterBrelse(l, s, t, i))
  {
    var b := s.cache[i];
    ReplaceOne(l, s, i, b.(refcnt := b.refcnt - 1, holder := None));
  }

  // ----- steps of the log -----

  lemma {:induction false} NoneOutstanding(ops: seq<Option<nat>>)
    requires Outstanding(ops) == 0
    ensures forall t :: 0 <= t < |ops| ==> ops[t].None?
  {
    if ops != [] {
      NoneOutstanding(ops[1..]);
      forall t | 0 <= t < |ops| ensures ops[t].None? {
        assert t > 0 ==> ops[t] == ops[1..][t - 1];
      }
    }
  }

  // Buffer `i` caches a block whose prescription changes; no other buffer does.
  lemma ChangeView(l: Layout, v: View, v': View, cache: seq<Buf>, i: nat, b: Buf)
    requires |v.current| == |v.disk| == |v'.current| == |v'.disk| && GoodCache(l, v, cache)
    requires i < |cache| && cache[i].valid && cache[i].key.Some? && b.key == cache[i].key && b.valid
    requires GoodCount(v', b) && GoodData(l, v', b)
    requires forall k: nat :: k < |v.disk| && Some(k) != b.key ==>
               && v'.disk[k] == v.disk[k] && v'.current[k] == v.current[k]
               && (k in v'.pinned <==> k in v.pinned) && (k in v'.stale <==> k in v.stale)
    requires |v'.ops| == |v.ops| && forall t :: 0 <= t < |v.ops| && v.ops[t].Some? ==> v'.ops[t].Some?
    requires forall p :: p in v'.pinned ==> p in v.pinned || Some(p) == b.key
    ensures GoodCache(l, v', cache[i := b])
  {
    var cache' := cache[i := b];
    forall j | 0 <= j < |cache'| ensures GoodCount(v', cache'[j]) && GoodData(l, v', cache'[j]) {
      assert GoodCount(v, cache[j]) && GoodData(l, v, cache[j]);
      assert j != i ==> cache[j].key.None? || cache[j].key != b.key;
    }
    forall p | p in v'.pinned ensures Cached(cache', p) {
      if Some(p) == b.key {
        assert cache'[i].key == Some(p) && cache'[i].valid;
      } else {
        assert Cached(cache, p);
        var k :| 0 <= k < |cache| && cache[k].key == Some(p) && cache[k].valid;
        assert cache'[k].key == Some(p) && cache'[k].valid;
      }
    }
  }

  lemma LogWriteKeepsLog(l: Layout, s: State, t: nat, i: nat)
    requires Inv(l, s) && CanLogWrite(l, s, t, i)
    ensures var g' := AfterLogWrite(l, s, t, i).log;
      Shape(l, g') && Durable(l, g') && Flushed(l, ViewOf(l, g'))
  {
    var g' := AfterLogWrite(l, s, t, i).log;
    assert forall b :: b in s.log.lh ==> b in g'.lh;
    assert s.cache[i].key.value in g'.lh;
  }

  lemma LogWriteStep(l: Layout, s: State, t: nat, i: nat)
    requires Inv(l, s) && CanLogWrite(l, s, t, i)
    ensures Inv(l, AfterLogWrite(l, s, t, i))
  {
    var s' := AfterLogWrite(l, s, t, i);
    var v := ViewOf(l, s.log);
    assert GoodCount(v, s.cache[i]) && GoodData(l, v, s.cache[i]);
    LogWriteKeepsLog(l, s, t, i);
    ChangeView(l, v, ViewOf(l, s'.log), s.cache, i, s'.cache[i]);
  }

  lemma BeginOpStep(l: Layout, s: State, t: nat)
    requires Inv(l, s) && CanBeginOp(l, s, t)
    ensures Inv(l, AfterBeginOp(l, s, t))
  {
    var s' := AfterBeginOp(l, s, t);
    assert forall i :: 0 <= i < |s.cache| ==> GoodData(l, ViewOf(l, s.log), s.cache[i]);
  }

  lemma EndOpStep(l: Layout, s: State, t: nat)
    requires Inv(l, s) && CanEndOp(l, s, t)
    ensures Inv(l, AfterEndOp(l, s, t))
  {
    var s' := AfterEndOp(l, s, t);
    if Outstanding(s'.log.ops) == 0 || Outstanding(s.log.ops[t := None]) == 0 {
      NoneOutstanding(s.log.ops[t := None]);
    }
    var v, v' := ViewOf(l, s.log), ViewOf(l, s'.log);
    assert v'.pinned == v.pinned;
    forall i | 0 <= i < |s.cache| ensures GoodData(l, v', s.cache[i]) && GoodCount(v', s.cache[i]) {
      assert GoodData(l, v, s.cache[i]) && GoodCount(v, s.cache[i]);
    }
  }

  lemma WriteLogBlockKeepsLog(l: Layout, g: Log, g': Log)
    requires Shape(l, g) && Durable(l, g) && Flushed(l, ViewOf(l, g))
    requires g.phase.WritingLog? && g.phase.tail < |g.lh|
    requires g' == g.(disk := g.disk[l.start + 1 + g.phase.tail := g.current[g.lh[g.phase.tail]]],
                      phase := WritingLog(g.phase.tail + 1))
    ensures Shape(l, g') && Durable(l, g') && Flushed(l, ViewOf(l, g'))
  {
    assert g'.disk[l.start] == g.disk[l.start];
    SlotRecovers(l, g.disk, Last(g), g.phase.tail, g.current[g.lh[g.phase.tail]]);
    HeadKeepsFlushed(l, g.disk, g'.disk, g.current, ViewOf(l, g).pinned, ViewOf(l, g).stale);
  }

  // While the header names nothing, a write to a log slot changes nothing the disk stands for.
  lemma SlotRecovers(l: Layout, d: Disk, h: Disk, j: nat, data: Block)
    requires GoodLayout(l, d) && RecoversBy(l, d, [], h) && j + 1 < l.nlog
    ensures RecoversBy(l, d[l.start + 1 + j := data], [], h)
  {
  }

  lemma WriteLogBlockStep(l: Layout, s: State, to: nat, from: nat)
    requires Inv(l, s) && CanWriteLogBlock(l, s, to, from)
    ensures Inv(l, AfterWriteLogBlock(l, s, to, from))
  {
    var s' := AfterWriteLogBlock(l, s, to, from);
    var v := ViewOf(l, s.log);
    assert GoodCount(v, s.cache[to]) && GoodData(l, v, s.cache[to]);
    assert GoodCount(v, s.cache[from]) && GoodData(l, v, s.cache[from]);
    WriteLogBlockKeepsLog(l, s.log, s'.log);
    ChangeView(l, v, ViewOf(l, s'.log), s.cache, to, s'.cache[to]);
  }

  lemma LogWrittenStep(l: Layout, s: State)
    requires Inv(l, s) && CanLogWritten(l, s)
    ensures Inv(l, AfterLogWritten(l, s))
  {
    assert ViewOf(l, AfterLogWritten(l, s).log) == ViewOf(l, s.log);
  }

  lemma WriteHeadKeepsLog(l: Layout, g: Log, head: Block, g': Log)
    requires Shape(l, g) && Durable(l, g) && Flushed(l, ViewOf(l, g)) && g.phase.WritingHead?
    requires Encodable(g.lh) && g' == g.(disk := g.disk[l.start := PutHeader(head, g.lh)], phase := Installing(0),
                                         history := g.history + [g.current])
    ensures Shape(l, g') && Durable(l, g') && Pinned(g') == Pinned(g) && Flushed(l, ViewOf(l, g'))
  {
    WriteHeadKeepsShape(l, g, head, g');
    assert Last(g') == g.current;
    CopiedRecovers(l, g, g'.disk);
    HeadKeepsFlushed(l, g.disk, g'.disk, g.current, ViewOf(l, g).pinned, ViewOf(l, g).stale);
  }

  lemma WriteHeadKeepsShape(l: Layout, g: Log, head: Block, g': Log)
    requires Shape(l, g) && g.phase.WritingHead? && Encodable(g.lh)
    requires g' == g.(disk := g.disk[l.start := PutHeader(head, g.lh)], phase := Installing(0),
                      history := g.history + [g.current])
    ensures Shape(l, g') && Header(g'.disk[l.start]) == g.lh && Pinned(g') == Pinned(g)
  {
    HeaderRoundTrip(head, g.lh);
    assert g.lh[0..] == g.lh;
  }

  // With every slot copied, naming the blocks commits them.
  lemma CopiedRecovers(l: Layout, g: Log, d: Disk)
    requires Shape(l, g) && Copied(l, g, |g.lh|) && Flushed(l, ViewOf(l, g)) && g.phase.WritingHead?
    requires |d| == |g.disk| && forall b: nat :: b < |d| && b != l.start ==> d[b] == g.disk[b]
    ensures RecoversBy(l, d, g.lh, g.current)
  {
  }

  // Writes to the log area flush nothing and unflush nothing.
  lemma HeadKeepsFlushed(l: Layout, d: Disk, d': Disk, current: Disk, pinned: seq<nat>, stale: seq<nat>)
    requires |d'| == |d| == |current| && forall b: nat :: Home(l, d, b) ==> d'[b] == d[b]
    ensures Flushed(l, View(d, current, [], pinned, stale)) <==> Flushed(l, View(d', current, [], pinned, stale))
  {
  }

  lemma WriteHeadStep(l: Layout, s: State, h: nat)
    requires Inv(l, s) && CanWriteHead(l, s, h)
    ensures Inv(l, AfterWriteHead(l, s, h))
  {
    var s' := AfterWriteHead(l, s, h);
    var v := ViewOf(l, s.log);
    assert GoodCount(v, s.cache[h]) && GoodData(l, v, s.cache[h]);
    WriteHeadKeepsLog(l, s.log, s.cache[h].data, s'.log);
    ChangeView(l, v, ViewOf(l, s'.log), s.cache, h, s'.cache[h]);
  }

  lemma DropFirst(lh: seq<nat>, t: nat)
    requires Distinct(lh) && t < |lh|
    ensures forall b :: b in lh[t..] <==> b == lh[t] || b in lh[t + 1..]
    ensures lh[t] !in lh[t + 1..]
  {
    assert lh[t..] == [lh[t]] + lh[t + 1..];
  }

  ghost predicate MayInstall(l: Layout, g: Log) {
    Shape(l, g) && (g.phase.Installing? || g.phase.Replaying?) && g.phase.tail < |g.lh|
  }

  // The log after install_trans writes one home block.
  ghost function InstallNext(l: Layout, g: Log): Log
    requires MayInstall(l, g)
  {
    g.(disk := g.disk[g.lh[g.phase.tail] := g.disk[l.start + 1 + g.phase.tail]],
       phase := if g.phase.Installing? then Installing(g.phase.tail + 1) else Replaying(g.phase.tail + 1))
  }

  lemma InstallKeepsShape(l: Layout, g: Log)
    requires MayInstall(l, g) && Durable(l, g)
    ensures Shape(l, InstallNext(l, g))
    ensures g.disk[l.start + 1 + g.phase.tail] == g.current[g.lh[g.phase.tail]]
  {
    assert InstallNext(l, g).disk[l.start] == g.disk[l.start];
  }

  lemma InstallKeepsDurable(l: Layout, g: Log)
    requires MayInstall(l, g) && Durable(l, g) && Shape(l, InstallNext(l, g))
    ensures Durable(l, InstallNext(l, g))
  {
    InstalledRecovers(l, g.disk, g.lh, Last(g), g.phase.tail);
  }

  // Copying a slot home leaves what the disk recovers to.
  lemma InstalledRecovers(l: Layout, d: Disk, hdr: seq<nat>, h: Disk, j: nat)
    requires GoodLayout(l, d) && GoodList(l, d, hdr) && RecoversBy(l, d, hdr, h) && j < |hdr|
    ensures RecoversBy(l, d[hdr[j] := d[l.start + 1 + j]], hdr, h)
  {
  }

  lemma InstallView(l: Layout, g: Log, v: View, v': View)
    requires MayInstall(l, g) && Shape(l, InstallNext(l, g))
    requires v == ViewOf(l, g) && v' == ViewOf(l, InstallNext(l, g))
    ensures var k := g.lh[g.phase.tail];
      && k !in v'.pinned && k !in v'.stale
      && (k in v.pinned <==> g.phase.Installing?) && (k in v.stale <==> g.phase.Replaying?)
      && forall b :: b != k ==> (b in v'.pinned <==> b in v.pinned) && (b in v'.stale <==> b in v.stale)
  {
    DropFirst(g.lh, g.phase.tail);
  }

  lemma InstallKeepsFlushed(l: Layout, g: Log)
    requires MayInstall(l, g) && Shape(l, InstallNext(l, g)) && Flushed(l, ViewOf(l, g))
    requires g.disk[l.start + 1 + g.phase.tail] == g.current[g.lh[g.phase.tail]]
    ensures Flushed(l, ViewOf(l, InstallNext(l, g)))
  {
    InstallView(l, g, ViewOf(l, g), ViewOf(l, InstallNext(l, g)));
  }

  lemma InstallKeepsLog(l: Layout, g: Log)
    requires MayInstall(l, g) && Durable(l, g) && Flushed(l, ViewOf(l, g))
    ensures Shape(l, InstallNext(l, g)) && Durable(l, InstallNext(l, g)) && Flushed(l, ViewOf(l, InstallNext(l, g)))
    ensures g.disk[l.start + 1 + g.phase.tail] == g.current[g.lh[g.phase.tail]]
  {
    InstallKeepsShape(l, g);
    InstallKeepsDurable(l, g);
    InstallKeepsFlushed(l, g);
  }

  // The cache after install_trans writes one home block; only commit holds a pin to drop.
  function InstallCache(g: Log, cache: seq<Buf>, lb: nat, db: nat): seq<Buf>
    requires lb < |cache| && db < |cache| && (g.phase.Installing? ==> cache[db].refcnt > 0)
  {
    var b := cache[db].(data := cache[lb].data);
    cache[db := if g.phase.Installing? then b.(refcnt := b.refcnt - 1) else b]
  }

  lemma InstallKeepsCache(l: Layout, g: Log, cache: seq<Buf>, lb: nat, db: nat)
    requires MayInstall(l, g) && Shape(l, InstallNext(l, g)) && GoodCache(l, ViewOf(l, g), cache)
    requires g.disk[l.start + 1 + g.phase.tail] == g.current[g.lh[g.phase.tail]]
    requires CanInstallBlock(l, State(g, cache), lb, db)
    ensures cache[lb].data == g.disk[l.start + 1 + g.phase.tail]
    ensures GoodCache(l, ViewOf(l, InstallNext(l, g)), InstallCache(g, cache, lb, db))
  {
    var v, v' := ViewOf(l, g), ViewOf(l, InstallNext(l, g));
    assert GoodCount(v, cache[lb]) && GoodData(l, v, cache[lb]);
    assert GoodCount(v, cache[db]) && GoodData(l, v, cache[db]);
    InstallView(l, g, v, v');
    ChangeView(l, v, v', cache, db, InstallCache(g, cache, lb, db)[db]);
  }

  lemma InstallApply(l: Layout, g: Log, cache: seq<Buf>, lb: nat, db: nat)
    requires CanInstallBlock(l, State(g, cache), lb, db) && MayInstall(l, g)
    requires cache[lb].data == g.disk[l.start + 1 + g.phase.tail]
    ensures AfterInstallBlock(l, State(g, cache), lb, db) == State(InstallNext(l, g), InstallCache(g, cache, lb, db))
  {
  }

  lemma InstallBlockStep(l: Layout, s: State, lb: nat, db: nat)
    requires Inv(l, s) && CanInstallBlock(l, s, lb, db)
    ensures Inv(l, AfterInstallBlock(l, s, lb, db))
  {
    var g, cache := s.log, s.cache;
    InstallKeepsLog(l, g);
    InstallKeepsCache(l, g, cache, lb, db);
    var s' := State(InstallNext(l, g), InstallCache(g, cache, lb, db));
    assert Inv(l, s');
    InstallApply(l, g, cache, lb, db);
  }

  lemma InstalledStep(l: Layout, s: State)
    requires Inv(l, s) && CanInstalled(l, s)
    ensures Inv(l, AfterInstalled(l, s))
  {
    assert ViewOf(l, AfterInstalled(l, s).log) == ViewOf(l, s.log);
  }

  lemma ClearHeadStep(l: Layout, s: State, h: nat)
    requires Inv(l, s) && CanClearHead(l, s, h)
    ensures Inv(l, AfterClearHead(l, s, h))
  {
    var s' := AfterClearHead(l, s, h);
    HeaderRoundTrip(s.cache[h].data, []);
    var v, v' := ViewOf(l, s.log), ViewOf(l, s'.log);
    assert GoodCount(v, s.cache[h]) && GoodData(l, v, s.cache[h]);
    ChangeView(l, v, v', s.cache, h, s'.cache[h]);
  }

  lemma EndCommitStep(l: Layout, s: State)
    requires Inv(l, s) && CanEndCommit(l, s)
    ensures Inv(l, AfterEndCommit(l, s))
  {
    assert ViewOf(l, AfterEndCommit(l, s).log) == ViewOf(l, s.log);
  }

  lemma ReadHeadStep(l: Layout, s: State, h: nat)
    requires Inv(l, s) && CanReadHead(l, s, h)
    ensures Inv(l, AfterReadHead(l, s, h))
  {
    var v := ViewOf(l, s.log);
    assert GoodCount(v, s.cache[h]) && GoodData(l, v, s.cache[h]);
    var g' := AfterReadHead(l, s, h).log;
    assert g'.lh[0..] == g'.lh;
    assert ViewOf(l, g') == v;
  }

  lemma CrashStep(l: Layout, s: State, t: nat)
    requires Inv(l, s) && CanCrash(l, s, t)
    ensures Inv(l, AfterCrash(l, s, t))
  {
  }

  lemma CacheStep(l: Layout, s: State, step: Step)
    requires Inv(l, s) && Enabled(l, s, step)
    requires step.BgetHit? || step.BgetMiss? || step.LockBuf? || step.ReadDisk? || step.Modify? || step.Brelse?
    ensures Inv(l, Apply(l, s, step))
  {
    match step {
      case BgetHit(t, i) => BgetHitStep(l, s, t, i);
      case BgetMiss(t, i, b) => BgetMissStep(l, s, t, i, b);
      case LockBuf(t, i) => LockBufStep(l, s, t, i);
      case ReadDisk(t, i) => ReadDiskStep(l, s, t, i);
      case Modify(t, i, data) => ModifyStep(l, s, t, i, data);
      case Brelse(t, i) => BrelseStep(l, s, t, i);
    }
  }

  lemma CommitStep(l: Layout, s: State, step: Step)
    requires Inv(l, s) && Enabled(l, s, step)
    requires step.WriteLogBlock? || step.LogWritten? || step.WriteHead? || step.InstallBlock? || step.Installed?
    ensures Inv(l, Apply(l, s, step))
  {
    match step {
      case WriteLogBlock(to, from) => WriteLogBlockStep(l, s, to, from);
      case LogWritten => LogWrittenStep(l, s);
      case WriteHead(h) => WriteHeadStep(l, s, h);
      case InstallBlock(lb, db) => InstallBlockStep(l, s, lb, db);
      case Installed => InstalledStep(l, s);
    }
  }

  /** Every step of every thread, of commit, of recovery, and every crash keeps the invariant. */
  lemma StepKeepsInv(l: Layout, s: State, step: Step)
    requires Inv(l, s) && Enabled(l, s, step)
    ensures Inv(l, Apply(l, s, step))
  {
    match step {
      case LogWrite(t, i) => LogWriteStep(l, s, t, i);
      case BeginOp(t) => BeginOpStep(l, s, t);
      case EndOp(t) => EndOpStep(l, s, t);
      case WriteLogBlock(_, _) => CommitStep(l, s, step);
      case LogWritten => CommitStep(l, s, step);
      case WriteHead(_) => CommitStep(l, s, step);
      case InstallBlock(_, _) => CommitStep(l, s, step);
      case Installed => CommitStep(l, s, step);
      case ClearHead(h) => ClearHeadStep(l, s, h);
      case EndCommit => EndCommitStep(l, s);
      case ReadHead(h) => ReadHeadStep(l, s, h);
      case Crash(t) => CrashStep(l, s, t);
      case _ => CacheStep(l, s, step);
    }
  }
}
