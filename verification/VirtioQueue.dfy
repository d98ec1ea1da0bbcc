/**
 virtio_disk.c's queue, shared with a device that takes requests in order and
 completes them in any order: the split virtqueue of section 2.6 of Virtio 1.1.
 A request is followed from the moment its chain is written until it is freed.
 */
module VirtioQueue {
  import opened Common
  import opened Bytes

  const NUM: nat := 8
  const WRAP: nat := 0x1_0000            // avail->idx, used->idx and used_idx are 16 bits wide
  const DESC_NEXT: nat := 1
  const DESC_WRITE: nat := 2
  const FRESH: nat := 0xff               // the status before the device has written it

  // What a descriptor points at: ops[i], the data of buffer b, or info[i].status.
  datatype Addr = Null | OpOf(i: nat) | DataOf(b: nat) | StatusOf(i: nat)

  datatype Desc = Desc(addr: Addr, len: nat, flags: nat, next: nat)

  datatype Op = Op(write: bool, sector: nat)

  // The driver's descriptor table; bufs[i] is info[i].b.
  datatype Table = Table(free: seq<bool>, desc: seq<Desc>, ops: seq<Op>, bufs: seq<Option<nat>>)

  // The table, info[i].status, and the two rings; flagged is the set of buffers whose disk flag is 1.
  datatype Queue = Queue(t: Table, status: seq<nat>, ring: seq<nat>, avail: nat,
                         used: seq<nat>, usedIdx: nat, seen: nat, flagged: set<nat>)

  const NO_DESC: Desc := Desc(Null, 0, 0, 0)

  ghost predicate Sized(q: Queue) {
    && TableSized(q.t) && |q.status| == |q.ring| == |q.used| == NUM
    && q.avail < WRAP && q.usedIdx < WRAP && q.seen < WRAP
  }

  ghost predicate TableSized(t: Table) {
    |t.free| == |t.desc| == |t.ops| == |t.bufs| == NUM
  }

  // ----- the driver's operations on the table -----

  // free_desc
  function Freed(t: Table, i: nat): Table
    requires TableSized(t) && i < NUM
  {
    t.(free := t.free[i := true], desc := t.desc[i := NO_DESC])
  }

  // The descriptor written over the data of buffer `b`.
  function DataDesc(b: nat, write: bool, next: nat): Desc {
    Desc(DataOf(b), BSIZE, if write then DESC_NEXT else DESC_WRITE + DESC_NEXT, next)
  }

  // What virtio_disk_rw writes on three descriptors it has allocated.
  function Formatted(t: Table, i: nat, j: nat, k: nat, b: nat, op: Op): Table
    requires TableSized(t) && i < NUM && j < NUM && k < NUM
  {
    Table(t.free[i := false][j := false][k := false],
          t.desc[i := Desc(OpOf(i), 16, DESC_NEXT, j)][j := DataDesc(b, op.write, k)]
        [k := Desc(StatusOf(i), 1, DESC_WRITE, 0)],
          t.ops[i := op],
          t.bufs[i := Some(b)])
  }

  // info[h].b = 0 and free_chain, which follows flags and next: three descriptors here.
  function FreedChain(t: Table, h: nat, mid: nat, last: nat): Table
    requires TableSized(t) && h < NUM && mid < NUM && last < NUM
  {
    Freed(Freed(Freed(t.(bufs := t.bufs[h := None]), h), mid), last)
  }

  // alloc3_desc takes the first three free descriptors.
  predicate FirstFree(free: seq<bool>, i: nat) {
    i < |free| && free[i] && forall n :: 0 <= n < i ==> !free[n]
  }

  predicate FirstThree(free: seq<bool>, i: nat, j: nat, k: nat) {
    FirstFree(free, i) && FirstFree(free[i := false], j) && FirstFree(free[i := false][j := false], k)
  }

  // ----- the machine -----

  datatype Stage = Posted | Pending | Busy | Writing | Unseen | Done

  // A request: its buffer and operation, its place in the order of issue, and the rest of its chain.
  datatype Req = Req(b: nat, op: Op, serial: nat, mid: nat, last: nat)

  // reqs and stage are keyed by head descriptor; pending and unseen are the heads in the two rings, taken is
  // how far the device has read the available ring; issued and cleared are the buffers issued and the serials
  // completed.
  datatype State = State(q: Queue, reqs: map<nat, Req>, stage: map<nat, Stage>,
                         taken: nat, pending: seq<nat>, unseen: seq<nat>,
                         issued: seq<nat>, cleared: seq<nat>)

  datatype Step =
    | Post(i: nat, j: nat, k: nat, b: nat, op: Op)   // the driver writes a chain and its ring entry
    | Publish(h: nat)                                // and moves avail->idx
    | Consume                                        // the device takes the next entry
    | Complete(h: nat, result: nat)                  // finishes a request and writes its used entry
    | Advance(h: nat)                                // and moves used->idx
    | Reap                                           // one round of virtio_disk_intr
    | Finish(h: nat)                                 // the issuer wakes and frees the chain

  predicate At(stage: map<nat, Stage>, h: nat, at: Stage) {
    h in stage && stage[h] == at
  }

  // No request is at a stage.  vdisk_lock is held while one is Posted.
  ghost predicate NoneAt(stage: map<nat, Stage>, at: Stage) {
    forall h :: h in stage ==> stage[h] != at
  }

  ghost predicate Enabled(s: State, step: Step)
    requires Sized(s.q)
  {
    match step
    case Post(i, j, k, b, _) => NoneAt(s.stage, Posted) && FirstThree(s.q.t.free, i, j, k) &&
      forall h :: h in s.reqs ==> s.reqs[h].b != b
    case Publish(h) => At(s.stage, h, Posted)
    case Consume => s.taken != s.q.avail
    case Complete(h, _) => At(s.stage, h, Busy) && NoneAt(s.stage, Writing) && h < NUM
    case Advance(h) => At(s.stage, h, Writing)
    case Reap => NoneAt(s.stage, Posted) && s.q.seen != s.q.usedIdx
    case Finish(h) => (
      && NoneAt(s.stage, Posted) && h in s.reqs && h < NUM
      && s.reqs[h].b !in s.q.flagged && s.reqs[h].mid < NUM && s.reqs[h].last < NUM)
  }

  function AfterPost(s: State, i: nat, j: nat, k: nat, b: nat, op: Op): State
    requires Sized(s.q) && i < NUM && j < NUM && k < NUM
  {
    s.(q := s.q.(t := Formatted(s.q.t, i, j, k, b, op), status := s.q.status[i := FRESH], flagged := s.q.flagged + {b},
                 ring := s.q.ring[s.q.avail % NUM := i]),
       reqs := s.reqs[i := Req(b, op, |s.issued|, j, k)], stage := s.stage[i := Posted], issued := s.issued + [b])
  }

  function AfterPublish(s: State, h: nat): State {
    s.(q := s.q.(avail := (s.q.avail + 1) % WRAP), stage := s.stage[h := Pending], pending := s.pending + [h])
  }

  // The ring slot the device reads.
  function Consumed(s: State): nat
    requires Sized(s.q)
  {
    s.q.ring[s.taken % NUM]
  }

  function AfterConsume(s: State): State
    requires Sized(s.q)
  {
    s.(stage := s.stage[Consumed(s) := Busy], taken := (s.taken + 1) % WRAP,
       pending := if |s.pending| == 0 then [] else s.pending[1..])
  }

  function AfterComplete(s: State, h: nat, result: nat): State
    requires Sized(s.q) && h < NUM
  {
    s.(q := s.q.(status := s.q.status[h := result], used := s.q.used[s.q.usedIdx % NUM := h]),
       stage := s.stage[h := Writing])
  }

  function AfterAdvance(s: State, h: nat): State {
    s.(q := s.q.(usedIdx := (s.q.usedIdx + 1) % WRAP), stage := s.stage[h := Unseen], unseen := s.unseen + [h])
  }

  // The used entry virtio_disk_intr looks at.
  function Reaped(s: State): nat
    requires Sized(s.q)
  {
    s.q.used[s.q.seen % NUM]
  }

  // The buffers still flagged after the completion of `id`: info[id].b is cleared.
  function Cleared(q: Queue, id: nat): set<nat>
    requires Sized(q)
  {
    if id < NUM && q.t.bufs[id].Some? then q.flagged - {q.t.bufs[id].value} else q.flagged
  }

  function AfterReap(s: State): State
    requires Sized(s.q)
  {
    var h := Reaped(s);
    s.(q := s.q.(seen := (s.q.seen + 1) % WRAP, flagged := Cleared(s.q, h)), stage := s.stage[h := Done],
       cleared := if h in s.reqs then s.cleared + [s.reqs[h].serial] else s.cleared,
       unseen := if |s.unseen| == 0 then [] else s.unseen[1..])
  }

  function AfterFinish(s: State, h: nat): State
    requires Sized(s.q) && h < NUM && h in s.reqs && s.reqs[h].mid < NUM && s.reqs[h].last < NUM
  {
    s.(q := s.q.(t := FreedChain(s.q.t, h, s.reqs[h].mid, s.reqs[h].last)),
       reqs := s.reqs - {h}, stage := s.stage - {h})
  }

  ghost function Apply(s: State, step: Step): State
    requires Sized(s.q) && Enabled(s, step)
  {
    match step
    case Post(i, j, k, b, op) => AfterPost(s, i, j, k, b, op)
    case Publish(h) => AfterPublish(s, h)
    case Consume => AfterConsume(s)
    case Complete(h, result) => AfterComplete(s, h, result)
    case Advance(h) => AfterAdvance(s, h)
    case Reap => AfterReap(s)
    case Finish(h) => AfterFinish(s, h)
  }
}
