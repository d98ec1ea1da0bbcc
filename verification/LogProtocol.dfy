/**
 The write-ahead log over the buffer cache, as an interleaved state machine.

 A step is one indivisible action: a cache action done under bcache.lock, one
 disk transfer, one log-header update under log.lock, or a crash.  Crashes may
 strike between any two steps, recovery included.  The machine carries two
 history variables: `current`, the contents last handed to log_write for every
 block, and `history`, the home contents as of each completed header write.
 */
module LogProtocol {
  import opened Common
  import opened Bytes

  const LOGSIZE: nat := 30
  const MAXOPBLOCKS: nat := 10

  type Disk = seq<Block>

  // log.start and log.size; the header sits at `start`, log slot j at `start + 1 + j`.
  datatype Layout = Layout(start: nat, nlog: nat)

  ghost predicate GoodLayout(l: Layout, d: Disk) {
    1 <= l.nlog && l.start + l.nlog <= |d| < 0x8000_0000
  }

  predicate InLog(l: Layout, b: nat) {
    l.start <= b < l.start + l.nlog
  }

  predicate Home(l: Layout, d: Disk, b: nat) {
    b < |d| && !InLog(l, b)
  }

  // ----- the on-disk header -----

  /** The block numbers recorded by a header block (read_head). */
  function Header(b: Block): seq<nat>
    requires Word(b, 0) < WORDS
  {
    seq(Word(b, 0), i requires 0 <= i < Word(b, 0) => Word(b, 1 + i))
  }

  // Block numbers as the `int` fields of the header hold them.
  predicate Encodable(lh: seq<nat>) {
    |lh| < WORDS && forall i :: 0 <= i < |lh| ==> lh[i] < 0x8000_0000
  }

  /** The header block after write_head stores the list `lh` over its old bytes. */
  function PutHeader(b: Block, lh: seq<nat>): Block
    requires Encodable(lh)
  {
    PutEntries(PutWord(b, 0, |lh|), lh, |lh|)
  }

  function PutEntries(b: Block, lh: seq<nat>, k: nat): Block
    requires Encodable(lh) && k <= |lh|
  {
    if k == 0 then b else PutWord(PutEntries(b, lh, k - 1), k, lh[k - 1])
  }

  lemma {:induction false} WordOfPutEntries(b: Block, lh: seq<nat>, k: nat, j: nat)
    requires Encodable(lh) && k <= |lh|
    requires j < WORDS
    ensures Word(PutEntries(b, lh, k), j) == if 1 <= j <= k then lh[j - 1] else Word(b, j)
  {
    if k > 0 {
      WordOfPutEntries(b, lh, k - 1, j);
      WordOfPutWord(PutEntries(b, lh, k - 1), k, lh[k - 1], j);
    }
  }

  /** read_head undoes write_head, whatever bytes the header block held before. */
  lemma HeaderRoundTrip(b: Block, lh: seq<nat>)
    requires Encodable(lh)
    ensures Word(PutHeader(b, lh), 0) == |lh|
    ensures Header(PutHeader(b, lh)) == lh
  {
    var p := PutWord(b, 0, |lh|);
    WordOfPutWord(b, 0, |lh|, 0);
    WordOfPutEntries(p, lh, |lh|, 0);
    forall i | 0 <= i < |lh| ensures Word(PutHeader(b, lh), 1 + i) == lh[i] {
      WordOfPutEntries(p, lh, |lh|, 1 + i);
    }
  }

  // A list of logged blocks that fits the log and names distinct home blocks.
  ghost predicate GoodList(l: Layout, d: Disk, lh: seq<nat>) {
    && |lh| <= LOGSIZE && |lh| < l.nlog
    && Distinct(lh)
    && forall i :: 0 <= i < |lh| ==> Home(l, d, lh[i])
  }

  ghost predicate GoodHeader(l: Layout, d: Disk)
    requires GoodLayout(l, d)
  {
    Word(d[l.start], 0) < WORDS && GoodList(l, d, Header(d[l.start]))
  }

  // Disks agree outside the log area.
  ghost predicate SameHome(l: Layout, d: Disk, e: Disk) {
    |d| == |e| && forall b: nat :: Home(l, d, b) ==> d[b] == e[b]
  }

  // What disk `d` turns into once its log has been replayed, stated block by block.
  ghost predicate RecoversTo(l: Layout, d: Disk, h: Disk)
    requires GoodLayout(l, d) && GoodHeader(l, d)
  {
    RecoversBy(l, d, Header(d[l.start]), h)
  }

  ghost predicate RecoversBy(l: Layout, d: Disk, hdr: seq<nat>, h: Disk)
    requires GoodLayout(l, d) && GoodList(l, d, hdr)
  {
    && |h| == |d|
    && (forall b: nat :: Home(l, d, b) && b !in hdr ==> d[b] == h[b])
    && (forall j :: 0 <= j < |hdr| ==> d[l.start + 1 + j] == h[hdr[j]])
  }

  // ----- machine state -----

  // `dirty`: changed under the buffer lock and not yet given to log_write.
  datatype Buf = Buf(key: Option<nat>, valid: bool, data: Block, refcnt: nat,
                     waiters: set<nat>, holder: Option<nat>, dirty: bool)

  datatype Phase =
    | Normal
    | WritingLog(tail: nat)
    | WritingHead
    | Installing(tail: nat)
    | ClearingHead
    | Finishing
    | Booting
    | Replaying(tail: nat)
    | EndingReplay

  // Everything but the cache: the disk, the in-memory log, and the history variables.
  datatype Log = Log(
    disk: Disk,
    lh: seq<nat>,                // log.lh.block[..log.lh.n]
    ops: seq<Option<nat>>,       // per thread: blocks this FS call has added to the log, if in one
    phase: Phase,
    committer: nat,              // thread running commit() or recover_from_log()
    current: Disk,
    history: seq<Disk>
  )

  datatype State = State(log: Log, cache: seq<Buf>)

  predicate Recovering(g: Log) {
    g.phase.Booting? || g.phase.Replaying? || g.phase.EndingReplay?
  }

  // log.outstanding
  function Outstanding(ops: seq<Option<nat>>): nat {
    if ops == [] then 0 else (if ops[0].Some? then 1 else 0) + Outstanding(ops[1..])
  }

  // Blocks whose buffers log_write has pinned and install_trans has not unpinned.
  function Pinned(g: Log): seq<nat> {
    match g.phase
    case Normal => g.lh
    case WritingLog(_) => g.lh
    case WritingHead => g.lh
    case Installing(t) => if t <= |g.lh| then g.lh[t..] else []
    case _ => []
  }

  // Blocks whose home copy recovery has yet to overwrite.
  ghost function Stale(l: Layout, g: Log): seq<nat>
    requires GoodLayout(l, g.disk) && GoodHeader(l, g.disk)
  {
    match g.phase
    case Booting => Header(g.disk[l.start])
    case Replaying(t) => if t <= |g.lh| then g.lh[t..] else []
    case _ => []
  }

  // ----- steps -----

  datatype Step =
    | BgetHit(t: nat, i: nat)
    | BgetMiss(t: nat, i: nat, b: nat)
    | LockBuf(t: nat, i: nat)
    | ReadDisk(t: nat, i: nat)
    | Modify(t: nat, i: nat, data: Block)
    | LogWrite(t: nat, i: nat)
    | Brelse(t: nat, i: nat)
    | BeginOp(t: nat)
    | EndOp(t: nat)
    | WriteLogBlock(to: nat, from: nat)
    | LogWritten
    | WriteHead(h: nat)
    | InstallBlock(lb: nat, db: nat)
    | Installed
    | ClearHead(h: nat)
    | EndCommit
    | ReadHead(h: nat)
    | Crash(t: nat)

  // Thread `t` has buffer `i` locked.
  predicate Locked(s: State, t: nat, i: nat) {
    // Other threads reach the file system only after recovery has finished.
    && t < |s.log.ops| && (Recovering(s.log) ==> t == s.log.committer)
    && i < |s.cache| && s.cache[i].holder == Some(t)
  }

  // The thread in commit() or recover_from_log() has block `b` locked and read in.
  predicate Has(s: State, i: nat, b: nat) {
    b < |s.log.disk| && Locked(s, s.log.committer, i) && s.cache[i].valid && s.cache[i].key == Some(b)
  }

  // Thread `t`, inside an FS call, has a home block locked and read in.
  predicate Writing(l: Layout, s: State, t: nat, i: nat) {
    && Locked(s, t, i) && s.cache[i].valid && s.log.ops[t].Some?
    && s.cache[i].key.Some? && Home(l, s.log.disk, s.cache[i].key.value)
  }

  // The two panics at the head of log_write.
  predicate LogWritePanics(l: Layout, n: nat, outstanding: nat) {
    n >= LOGSIZE || n >= l.nlog - 1 || outstanding < 1
  }

  function ColdCache(n: nat): seq<Buf> {
    seq(n, _ => Buf(None, false, Zeroed(), 0, {}, None, false))
  }

  // bget finds the block cached, and queues for its lock.
  predicate CanBgetHit(l: Layout, s: State, t: nat, i: nat) {
    var g := s.log;
    && t < |g.ops| && (Recovering(g) ==> t == g.committer) && i < |s.cache|
    && s.cache[i].key.Some? && t !in s.cache[i].waiters && s.cache[i].holder != Some(t)
  }

  function AfterBgetHit(l: Layout, s: State, t: nat, i: nat): State
    requires CanBgetHit(l, s, t, i)
  {
    var b := s.cache[i];
    s.(cache := s.cache[i := b.(refcnt := b.refcnt + 1, waiters := b.waiters + {t})])
  }

  // bget recycles an unreferenced buffer.
  predicate CanBgetMiss(l: Layout, s: State, t: nat, i: nat, b: nat) {
    var g := s.log;
    && t < |g.ops| && (Recovering(g) ==> t == g.committer) && i < |s.cache|
    && b < |g.disk| && s.cache[i].refcnt == 0
    && forall j :: 0 <= j < |s.cache| ==> s.cache[j].key != Some(b)
  }

  function AfterBgetMiss(l: Layout, s: State, t: nat, i: nat, b: nat): State
    requires CanBgetMiss(l, s, t, i, b)
  {
    s.(cache := s.cache[i := s.cache[i].(key := Some(b), valid := false, refcnt := 1, waiters := {t})])
  }

  // acquiresleep on a buffer.
  predicate CanLockBuf(l: Layout, s: State, t: nat, i: nat) {
    i < |s.cache| && t in s.cache[i].waiters && s.cache[i].holder == None
  }

  function AfterLockBuf(l: Layout, s: State, t: nat, i: nat): State
    requires CanLockBuf(l, s, t, i)
  {
    var b := s.cache[i];
    s.(cache := s.cache[i := b.(waiters := b.waiters - {t}, holder := Some(t))])
  }

  // The disk read in bread.
  predicate CanReadDisk(l: Layout, s: State, t: nat, i: nat) {
    var g := s.log;
    Locked(s, t, i) && !s.cache[i].valid && s.cache[i].key.Some? && s.cache[i].key.value < |g.disk|
  }

  function AfterReadDisk(l: Layout, s: State, t: nat, i: nat): State
    requires CanReadDisk(l, s, t, i)
  {
    var g := s.log;
    var b := s.cache[i];
    s.(cache := s.cache[i := b.(valid := true, data := g.disk[b.key.value])])
  }

  // An FS call changes a locked buffer.
  predicate CanModify(l: Layout, s: State, t: nat, i: nat, data: Block) {
    Writing(l, s, t, i)
  }

  function AfterModify(l: Layout, s: State, t: nat, i: nat, data: Block): State
    requires CanModify(l, s, t, i, data)
  {
    s.(cache := s.cache[i := s.cache[i].(data := data, dirty := true)])
  }

  // log_write, absorbing a block already listed.
  predicate CanLogWrite(l: Layout, s: State, t: nat, i: nat) {
    var g := s.log;
    Writing(l, s, t, i) && !LogWritePanics(l, |g.lh|, Outstanding(g.ops)) && |g.current| == |g.disk|
  }

  function AfterLogWrite(l: Layout, s: State, t: nat, i: nat): State
    requires CanLogWrite(l, s, t, i)
  {
    var g := s.log;
    var b := s.cache[i];
    var k := b.key.value;
    if k in g.lh then
      State(g.(current := g.current[k := b.data]), s.cache[i := b.(dirty := false)])
    else
      State(g.(current := g.current[k := b.data], lh := g.lh + [k], ops := g.ops[t := Some(g.ops[t].value + 1)]),
            s.cache[i := b.(dirty := false, refcnt := b.refcnt + 1)])
  }

  // brelse.
  predicate CanBrelse(l: Layout, s: State, t: nat, i: nat) {
    Locked(s, t, i) && !s.cache[i].dirty && s.cache[i].refcnt > 0
  }

  function AfterBrelse(l: Layout, s: State, t: nat, i: nat): State
    requires CanBrelse(l, s, t, i)
  {
    var b := s.cache[i];
    s.(cache := s.cache[i := b.(refcnt := b.refcnt - 1, holder := None)])
  }

  // begin_op, once it need not wait.
  predicate CanBeginOp(l: Layout, s: State, t: nat) {
    var g := s.log;
    && t < |g.ops| && g.ops[t] == None && g.phase.Normal?
    && |g.lh| + (Outstanding(g.ops) + 1) * MAXOPBLOCKS <= LOGSIZE
  }

  function AfterBeginOp(l: Layout, s: State, t: nat): State
    requires CanBeginOp(l, s, t)
  {
    var g := s.log;
    s.(log := g.(ops := g.ops[t := Some(0)]))
  }

  // end_op; the last one out starts the commit.
  predicate CanEndOp(l: Layout, s: State, t: nat) {
    var g := s.log;
    && t < |g.ops| && g.ops[t].Some? && g.phase.Normal?
    && forall i :: 0 <= i < |s.cache| && s.cache[i].holder == Some(t) ==> !s.cache[i].dirty
  }

  function AfterEndOp(l: Layout, s: State, t: nat): State
    requires CanEndOp(l, s, t)
  {
    var g := s.log;
    var g1 := g.(ops := g.ops[t := None]);
    s.(log := if Outstanding(g1.ops) > 0 then g1
              else g1.(committer := t, phase := if |g.lh| > 0 then WritingLog(0) else Finishing))
  }

  // One round of write_log: copy the cached block into its log slot.
  predicate CanWriteLogBlock(l: Layout, s: State, to: nat, from: nat) {
    var g := s.log;
    && g.phase.WritingLog? && g.phase.tail < |g.lh|
    && Has(s, to, l.start + 1 + g.phase.tail) && Has(s, from, g.lh[g.phase.tail])
  }

  function AfterWriteLogBlock(l: Layout, s: State, to: nat, from: nat): State
    requires CanWriteLogBlock(l, s, to, from)
  {
    var g := s.log;
    var data := s.cache[from].data;
    State(g.(disk := g.disk[l.start + 1 + g.phase.tail := data], phase := WritingLog(g.phase.tail + 1)),
          s.cache[to := s.cache[to].(data := data)])
  }

  // write_log is done.
  predicate CanLogWritten(l: Layout, s: State) {
    var g := s.log;
    g.phase.WritingLog? && g.phase.tail == |g.lh|
  }

  function AfterLogWritten(l: Layout, s: State): State
    requires CanLogWritten(l, s)
  {
    var g := s.log;
    s.(log := g.(phase := WritingHead))
  }

  // write_head: the commit point.
  predicate CanWriteHead(l: Layout, s: State, h: nat) {
    var g := s.log;
    g.phase.WritingHead? && Has(s, h, l.start) && Encodable(g.lh)
  }

  function AfterWriteHead(l: Layout, s: State, h: nat): State
    requires CanWriteHead(l, s, h)
  {
    var g := s.log;
    var data := PutHeader(s.cache[h].data, g.lh);
    State(g.(disk := g.disk[l.start := data], phase := Installing(0), history := g.history + [g.current]),
          s.cache[h := s.cache[h].(data := data)])
  }

  // One round of install_trans; commit also drops the log's pin.
  predicate CanInstallBlock(l: Layout, s: State, lb: nat, db: nat) {
    var g := s.log;
    && (g.phase.Installing? || g.phase.Replaying?) && g.phase.tail < |g.lh|
    && Has(s, lb, l.start + 1 + g.phase.tail) && Has(s, db, g.lh[g.phase.tail])
    && (g.phase.Installing? ==> s.cache[db].refcnt > 0)
  }

  function AfterInstallBlock(l: Layout, s: State, lb: nat, db: nat): State
    requires CanInstallBlock(l, s, lb, db)
  {
    var g := s.log;
    var b := s.cache[db];
    var data := s.cache[lb].data;
    var disk := g.disk[g.lh[g.phase.tail] := data];
    if g.phase.Installing? then
      State(g.(disk := disk, phase := Installing(g.phase.tail + 1)),
            s.cache[db := b.(data := data, refcnt := b.refcnt - 1)])
    else
      State(g.(disk := disk, phase := Replaying(g.phase.tail + 1)), s.cache[db := b.(data := data)])
  }

  // install_trans is done; log.lh.n = 0.
  predicate CanInstalled(l: Layout, s: State) {
    var g := s.log;
    (g.phase.Installing? || g.phase.Replaying?) && g.phase.tail == |g.lh|
  }

  function AfterInstalled(l: Layout, s: State): State
    requires CanInstalled(l, s)
  {
    var g := s.log;
    s.(log := g.(lh := [], phase := if g.phase.Installing? then ClearingHead else EndingReplay))
  }

  // write_head with an empty list: erase the transaction.
  predicate CanClearHead(l: Layout, s: State, h: nat) {
    var g := s.log;
    (g.phase.ClearingHead? || g.phase.EndingReplay?) && Has(s, h, l.start)
  }

  function AfterClearHead(l: Layout, s: State, h: nat): State
    requires CanClearHead(l, s, h)
  {
    var g := s.log;
    var data := PutHeader(s.cache[h].data, []);
    State(g.(disk := g.disk[l.start := data], phase := if g.phase.ClearingHead? then Finishing else Normal),
          s.cache[h := s.cache[h].(data := data)])
  }

  // log.committing = 0.
  predicate CanEndCommit(l: Layout, s: State) {
    var g := s.log;
    g.phase.Finishing?
  }

  function AfterEndCommit(l: Layout, s: State): State
    requires CanEndCommit(l, s)
  {
    var g := s.log;
    s.(log := g.(phase := Normal))
  }

  // read_head at boot.
  predicate CanReadHead(l: Layout, s: State, h: nat) {
    var g := s.log;
    g.phase.Booting? && Has(s, h, l.start) && Word(s.cache[h].data, 0) < WORDS
  }

  function AfterReadHead(l: Layout, s: State, h: nat): State
    requires CanReadHead(l, s, h)
  {
    var g := s.log;
    s.(log := g.(lh := Header(s.cache[h].data), phase := Replaying(0)))
  }

  // Power fails: memory is lost and boot starts over.
  predicate CanCrash(l: Layout, s: State, t: nat) {
    var g := s.log;
    t < |g.ops| && g.history != []
  }

  function AfterCrash(l: Layout, s: State, t: nat): State
    requires CanCrash(l, s, t)
  {
    var g := s.log;
    State(g.(lh := [], ops := seq(|g.ops|, _ => None), phase := Booting, committer := t,
             current := g.history[|g.history| - 1]),
          ColdCache(|s.cache|))
  }

  predicate Enabled(l: Layout, s: State, step: Step) {
    match step
    case BgetHit(t, i) => CanBgetHit(l, s, t, i)
    case BgetMiss(t, i, b) => CanBgetMiss(l, s, t, i, b)
    case LockBuf(t, i) => CanLockBuf(l, s, t, i)
    case ReadDisk(t, i) => CanReadDisk(l, s, t, i)
    case Modify(t, i, data) => CanModify(l, s, t, i, data)
    case LogWrite(t, i) => CanLogWrite(l, s, t, i)
    case Brelse(t, i) => CanBrelse(l, s, t, i)
    case BeginOp(t) => CanBeginOp(l, s, t)
    case EndOp(t) => CanEndOp(l, s, t)
    case WriteLogBlock(to, from) => CanWriteLogBlock(l, s, to, from)
    case LogWritten => CanLogWritten(l, s)
    case WriteHead(h) => CanWriteHead(l, s, h)
    case InstallBlock(lb, db) => CanInstallBlock(l, s, lb, db)
    case Installed => CanInstalled(l, s)
    case ClearHead(h) => CanClearHead(l, s, h)
    case EndCommit => CanEndCommit(l, s)
    case ReadHead(h) => CanReadHead(l, s, h)
    case Crash(t) => CanCrash(l, s, t)
  }

  function Apply(l: Layout, s: State, step: Step): State
    requires Enabled(l, s, step)
  {
    match step
    case BgetHit(t, i) => AfterBgetHit(l, s, t, i)
    case BgetMiss(t, i, b) => AfterBgetMiss(l, s, t, i, b)
    case LockBuf(t, i) => AfterLockBuf(l, s, t, i)
    case ReadDisk(t, i) => AfterReadDisk(l, s, t, i)
    case Modify(t, i, data) => AfterModify(l, s, t, i, data)
    case LogWrite(t, i) => AfterLogWrite(l, s, t, i)
    case Brelse(t, i) => AfterBrelse(l, s, t, i)
    case BeginOp(t) => AfterBeginOp(l, s, t)
    case EndOp(t) => AfterEndOp(l, s, t)
    case WriteLogBlock(to, from) => AfterWriteLogBlock(l, s, to, from)
    case LogWritten => AfterLogWritten(l, s)
    case WriteHead(h) => AfterWriteHead(l, s, h)
    case InstallBlock(lb, db) => AfterInstallBlock(l, s, lb, db)
    case Installed => AfterInstalled(l, s)
    case ClearHead(h) => AfterClearHead(l, s, h)
    case EndCommit => AfterEndCommit(l, s)
    case ReadHead(h) => AfterReadHead(l, s, h)
    case Crash(t) => AfterCrash(l, s, t)
  }
}
