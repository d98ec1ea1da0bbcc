/**
 What every step of the process machine keeps, facet by facet: which locks a pc
 holds, which process a CPU works on and in which state, who is whose parent, and
 who may be asleep in wait().
 */
module ProcInvariant {
  import opened Common
  import opened ProcMachine

  // ----- placement: pcs, c->proc and indices agree -----

  predicate SleepsWell(p: nat, chan: Chan, lk: Lock) {
    lk == LockOf(chan) && (chan == WaitChan(p) || chan.Event?)
  }

  // The lock that guards a channel.
  function LockOf(chan: Chan): Lock {
    if chan.Event? then Other(chan.lock) else WaitLock
  }

  // A pc without a lock, where an interrupt may find the CPU.
  predicate GoodBase(proc: Option<nat>, pc: Pc) {
    match proc
    case None => pc.Sched? && pc.s == SchedLoop && pc.i <= NPROC
    case Some(p) =>
      (match pc
       case Run => true
       case Sleep(at, chan, lk) => at == SleepReacquire && SleepsWell(p, chan, lk)
       case Alloc(at, i) => at == AllocScan && i <= NPROC
       case Fork(at, i) => (at == ForkWait || at == ForkStart) && i < NPROC
       case Kill(at, i) => at == KillScan && i <= NPROC
       case _ => false)
  }

  predicate GoodContext(p: nat, k: Context) {
    match k
    case AfterSleep(chan, lk) => SleepsWell(p, chan, lk)
    case AfterYield(at) => GoodBase(Some(p), at)
    case _ => true
  }

  // A context that swtch can go on with.
  predicate CanResume(p: nat, k: Context) {
    GoodContext(p, k) && !k.AfterExit? && !k.Loaded?
  }

  predicate GoodRet(proc: Option<nat>, chan: Chan, ret: Ret) {
    match ret
    case ToLocked(id, back) => chan.Event? && chan.lock == id && GoodBase(proc, back)
    case ToReparent(i) => proc.Some? && chan.WaitChan? && i < NPROC
    case ToExit => proc.Some? && chan.WaitChan?
  }

  // Tables scans reach NPROC only before the lock of the next entry is taken.
  predicate InScan(start: bool, i: nat) {
    i < NPROC || (start && i == NPROC)
  }

  predicate Placed(cpu: Cpu) {
    match cpu.proc
    case None =>
      (match cpu.pc
       case Sched(at, i) => InScan(at == SchedLoop, i) && at != SchedSwitch && at != SchedBack
       case Locked(_, back) => GoodBase(None, back)
       case Wake(w, chan, i, ret) => InScan(w == WakeNext, i) && GoodRet(None, chan, ret)
       case _ => false)
    case Some(p) =>
      p < NPROC && PlacedProc(p, Outside(cpu.pc)) && (cpu.pc.Inside? ==> CanEnter(p, cpu.pc.at, cpu.pc.lock))
  }

  // The pc beneath an inner lock.
  function Outside(pc: Pc): Pc {
    if pc.Inside? then pc.at else pc
  }

  predicate PlacedProc(p: nat, pc: Pc) {
    match pc
      case Sched(at, i) => (at == SchedSwitch || at == SchedBack) && i == p
      case AtSched(k) => GoodContext(p, k)
      case Resumed(k) => CanResume(p, k)
      case Locked(_, back) => GoodBase(Some(p), back)
      case Inside(_, _) => false
      case YieldHeld(at) => GoodBase(Some(p), at)
      case Sleep(_, chan, lk) => SleepsWell(p, chan, lk)
      case Wake(w, chan, i, ret) => InScan(w == WakeNext, i) && GoodRet(Some(p), chan, ret)
      case Alloc(at, i) => InScan(at == AllocScan, i)
      case Fork(_, i) => i < NPROC
      case Exit(_, i) => i <= NPROC
      case Wait(at, i, _) => InScan(!(at == WaitCheck || at == WaitSkip || at == WaitReap), i)
      case Kill(at, i) => InScan(at == KillScan, i)
      case _ => true
  }

  ghost predicate PlacedInv(s: State)
    requires Shape(s)
  {
    && (forall c :: 0 <= c < NCPU ==> Placed(s.cpus[c]))
    && (forall p :: 0 <= p < NPROC ==> GoodContext(p, s.procs[p].context))
  }

  // ----- locks -----

  // The locks a CPU holds: at most one of each kind.
  datatype Keys = Keys(outer: Option<Lock>, proc: Option<nat>, inner: Option<nat>)

  predicate Opens(keys: Keys, lock: Lock) {
    match lock
    case ProcLock(p) => keys.proc == Some(p)
    case Inner(id) => keys.inner == Some(id)
    case _ => keys.outer == Some(lock)
  }

  function With(keys: Keys, lock: Lock): Keys {
    match lock
    case ProcLock(p) => keys.(proc := Some(p))
    case Inner(id) => keys.(inner := Some(id))
    case _ => keys.(outer := Some(lock))
  }

  function Without(keys: Keys, lock: Lock): Keys {
    match lock
    case ProcLock(_) => keys.(proc := None)
    case Inner(_) => keys.(inner := None)
    case _ => keys.(outer := None)
  }

  // Locks are taken outer ones first, then a process's, then an inner one.
  predicate InOrder(keys: Keys, lock: Lock) {
    match lock
    case ProcLock(_) => keys.proc == None && keys.inner == None
    case Inner(_) => keys.inner == None
    case _ => keys == Keys(None, None, None)
  }

  function Count(keys: Keys): nat {
    (if keys.outer.Some? then 1 else 0) + (if keys.proc.Some? then 1 else 0) + (if keys.inner.Some? then 1 else 0)
  }

  // The locks held at a pc.
  function KeysAt(proc: Option<nat>, pc: Pc): Keys {
    match pc
    case Sched(at, i) => Keys(None, if at == SchedLoop then None else Some(i), None)
    case Run => Keys(None, None, None)
    case Locked(id, _) => Keys(Some(Other(id)), None, None)
    case Inside(_, _) => Keys(None, None, None)
    case AtSched(_) => Keys(None, proc, None)
    case Resumed(_) => Keys(None, proc, None)
    case YieldHeld(_) => Keys(None, proc, None)
    case Sleep(at, _, lk) =>
      Keys(if at == SleepEnter || at == SleepHeld then Some(lk) else None,
           if at == SleepEnter || at == SleepReacquire then None else proc, None)
    case Wake(at, _, i, ret) =>
      Keys(Some(if ret.ToLocked? then Other(ret.id) else WaitLock), if at == WakeNext then None else Some(i), None)
    case Alloc(at, i) => Keys(None, if at == AllocScan then None else Some(i), None)
    case Fork(at, i) =>
      Keys(if at == ForkLink || at == ForkLinked then Some(WaitLock) else None,
        if at in {ForkCopied, ForkMark, ForkDone} then Some(i) else None, None)
    case Exit(at, _) => Keys(Some(WaitLock), if at == ExitMark || at == ExitRelease then proc else None, None)
    case Wait(at, i, _) =>
      Keys(Some(WaitLock), if at in {WaitCheck, WaitSkip, WaitReap} then Some(i)
             else if at in {WaitKilled, WaitAsked} then proc else None, None)
    case Kill(at, i) => Keys(None, if at == KillScan then None else Some(i), None)
  }

  function Held(cpu: Cpu): Keys {
    if cpu.pc.Inside? then With(KeysAt(cpu.proc, cpu.pc.at), cpu.pc.lock) else KeysAt(cpu.proc, cpu.pc)
  }

  predicate Holds(cpu: Cpu, lock: Lock) {
    Opens(Held(cpu), lock)
  }

  ghost predicate LocksInv(s: State)
    requires Shape(s)
  {
    && (forall c, l :: 0 <= c < NCPU ==> (Holds(s.cpus[c], l) <==> Holding(s, c, l)))
    && (forall l :: l in s.owner ==> s.owner[l] < NCPU)
    && (forall c :: 0 <= c < NCPU ==>
           s.cpus[c].noff == Count(Held(s.cpus[c])) && (s.cpus[c].noff > 0 ==> !s.cpus[c].intr))
  }

  // ----- placement and locks are kept -----

  // What an action does to the locks its CPU holds.
  ghost predicate LockChange(keys: Keys, keys': Keys, a: Action) {
    match a
    case Acquire(lock, _) => InOrder(keys, lock) && keys' == With(keys, lock)
    case Release(lock, _) => Opens(keys, lock) && keys' == Without(keys, lock)
    case _ => keys' == keys
  }

  // Every line leaves its CPU well placed, whichever kind of action it is.

  lemma MovePlaced(s: State, cpu: Cpu, a: Action, k: Context, on: bool)
    requires |s.procs| == NPROC && Placed(cpu) && Allowed(s, cpu, a) && a.Move?
    ensures Placed(NewCpu(cpu, a, k, on))
  {
    if a.pc.Wake? { WakePlaced(s, cpu, a, k, on); } else { OtherMovePlaced(s, cpu, a, k, on); }
  }

  lemma WakePlaced(s: State, cpu: Cpu, a: Action, k: Context, on: bool)
    requires |s.procs| == NPROC && Placed(cpu) && Allowed(s, cpu, a) && a.Move? && a.pc.Wake?
    ensures Placed(NewCpu(cpu, a, k, on))
  {
  }

  lemma OtherMovePlaced(s: State, cpu: Cpu, a: Action, k: Context, on: bool)
    requires |s.procs| == NPROC && Placed(cpu) && Allowed(s, cpu, a) && a.Move? && !a.pc.Wake?
    ensures Placed(NewCpu(cpu, a, k, on))
  {
    if cpu.pc.Wake? { WokenPlaced(s, cpu, a); } else { ScanPlaced(s, cpu, a); }
  }

  lemma WokenPlaced(s: State, cpu: Cpu, a: Action)
    requires |s.procs| == NPROC && Placed(cpu) && Allowed(s, cpu, a) && a.Move? && !a.pc.Wake? && cpu.pc.Wake?
    ensures Placed(cpu.(pc := a.pc))
  {
  }

  lemma ScanPlaced(s: State, cpu: Cpu, a: Action)
    requires |s.procs| == NPROC && Placed(cpu) && Allowed(s, cpu, a) && a.Move? && !a.pc.Wake? && !cpu.pc.Wake?
    ensures Placed(cpu.(pc := a.pc))
  {
  }

  lemma AcquirePlaced(s: State, cpu: Cpu, a: Action, k: Context, on: bool)
    requires |s.procs| == NPROC && Placed(cpu) && Allowed(s, cpu, a) && a.Acquire?
    ensures Placed(NewCpu(cpu, a, k, on))
  {
  }

  lemma ReleasePlaced(s: State, cpu: Cpu, a: Action, k: Context, on: bool)
    requires |s.procs| == NPROC && Placed(cpu) && Allowed(s, cpu, a) && a.Release?
    ensures Placed(NewCpu(cpu, a, k, on))
  {
  }

  lemma PutPlaced(s: State, cpu: Cpu, a: Action, k: Context, on: bool)
    requires |s.procs| == NPROC && Placed(cpu) && Allowed(s, cpu, a) && a.Put?
    ensures Placed(NewCpu(cpu, a, k, on))
  {
    if a.w.NewState? { MarkPlaced(s, cpu, a); } else { WritePlaced(s, cpu, a); }
  }

  lemma MarkPlaced(s: State, cpu: Cpu, a: Action)
    requires |s.procs| == NPROC && Placed(cpu) && Allowed(s, cpu, a) && a.Put? && a.w.NewState?
    ensures Placed(cpu.(pc := a.pc))
  {
  }

  lemma WritePlaced(s: State, cpu: Cpu, a: Action)
    requires |s.procs| == NPROC && Placed(cpu) && Allowed(s, cpu, a) && a.Put? && !a.w.NewState?
    ensures Placed(cpu.(pc := a.pc))
  {
  }

  lemma SwitchPlaced(s: State, cpu: Cpu, a: Action, k: Context, on: bool)
    requires |s.procs| == NPROC && Placed(cpu) && Allowed(s, cpu, a) && (a.SetProc? || a.SwitchIn? || a.SwitchOut?)
    requires a == SwitchIn ==> cpu.proc.Some? && CanResume(cpu.proc.value, k)
    ensures Placed(NewCpu(cpu, a, k, on))
  {
  }

  // Every line changes the locks held as its action says.

  lemma MoveLocks(s: State, cpu: Cpu, a: Action, k: Context, on: bool)
    requires |s.procs| == NPROC && Placed(cpu) && Allowed(s, cpu, a) && a.Move?
    ensures LockChange(Held(cpu), Held(NewCpu(cpu, a, k, on)), a)
  {
  }

  lemma AcquireLocks(s: State, cpu: Cpu, a: Action, k: Context, on: bool)
    requires |s.procs| == NPROC && Placed(cpu) && Allowed(s, cpu, a) && a.Acquire? && a.lock.ProcLock?
    ensures LockChange(Held(cpu), Held(NewCpu(cpu, a, k, on)), a)
  {
  }

  lemma AcquireOthers(s: State, cpu: Cpu, a: Action, k: Context, on: bool)
    requires |s.procs| == NPROC && Placed(cpu) && Allowed(s, cpu, a) && a.Acquire? && !a.lock.ProcLock?
    ensures LockChange(Held(cpu), Held(NewCpu(cpu, a, k, on)), a)
  {
  }

  lemma ReleaseLocks(s: State, cpu: Cpu, a: Action, k: Context, on: bool)
    requires |s.procs| == NPROC && Placed(cpu) && Allowed(s, cpu, a) && a.Release? && a.lock.ProcLock?
    ensures LockChange(Held(cpu), Held(NewCpu(cpu, a, k, on)), a)
  {
  }

  lemma ReleaseOthers(s: State, cpu: Cpu, a: Action, k: Context, on: bool)
    requires |s.procs| == NPROC && Placed(cpu) && Allowed(s, cpu, a) && a.Release? && !a.lock.ProcLock?
    ensures LockChange(Held(cpu), Held(NewCpu(cpu, a, k, on)), a)
  {
  }

  lemma PutLocks(s: State, cpu: Cpu, a: Action, k: Context, on: bool)
    requires |s.procs| == NPROC && Placed(cpu) && Allowed(s, cpu, a) && a.Put?
    ensures LockChange(Held(cpu), Held(NewCpu(cpu, a, k, on)), a)
  {
  }

  lemma SwitchLocks(s: State, cpu: Cpu, a: Action, k: Context, on: bool)
    requires |s.procs| == NPROC && Placed(cpu) && Allowed(s, cpu, a) && (a.SetProc? || a.SwitchIn? || a.SwitchOut?)
    ensures LockChange(Held(cpu), Held(NewCpu(cpu, a, k, on)), a)
  {
  }

  lemma LineLocks(s: State, cpu: Cpu, a: Action, k: Context, on: bool)
    requires |s.procs| == NPROC && Placed(cpu) && Allowed(s, cpu, a)
    ensures LockChange(Held(cpu), Held(NewCpu(cpu, a, k, on)), a)
  {
    match a
    case Move(_) => MoveLocks(s, cpu, a, k, on);
    case Acquire(ProcLock(_), _) => AcquireLocks(s, cpu, a, k, on);
    case Acquire(_, _) => AcquireOthers(s, cpu, a, k, on);
    case Release(ProcLock(_), _) => ReleaseLocks(s, cpu, a, k, on);
    case Release(_, _) => ReleaseOthers(s, cpu, a, k, on);
    case Put(_, _, _) => PutLocks(s, cpu, a, k, on);
    case _ => SwitchLocks(s, cpu, a, k, on);
  }

  lemma LinePlaced(s: State, cpu: Cpu, a: Action, k: Context, on: bool)
    requires |s.procs| == NPROC && Placed(cpu) && Allowed(s, cpu, a)
    requires a == SwitchIn ==> cpu.proc.Some? && CanResume(cpu.proc.value, k)
    ensures Placed(NewCpu(cpu, a, k, on))
  {
    match a
    case Move(_) => MovePlaced(s, cpu, a, k, on);
    case Acquire(_, _) => AcquirePlaced(s, cpu, a, k, on);
    case Release(_, _) => ReleasePlaced(s, cpu, a, k, on);
    case Put(_, _, _) => PutPlaced(s, cpu, a, k, on);
    case _ => SwitchPlaced(s, cpu, a, k, on);
  }

  ghost predicate MayStep(s: State, c: nat, a: Action) {
    Shape(s) && c < NCPU && Allowed(s, s.cpus[c], a) && !Blocked(s, a)
  }

  lemma OwnerChange(s: State, c: nat, a: Action, cpu': Cpu, d: nat, l: Lock)
    requires Shape(s) && c < NCPU && d < NCPU && !Blocked(s, a) && LocksInv(s)
    requires LockChange(Held(s.cpus[c]), Held(cpu'), a)
    ensures var owner := NewOwner(s.owner, c, a);
      (l in owner && owner[l] == d) <==> if d == c then Holds(cpu', l) else Holds(s.cpus[d], l)
  {
    assert Holds(s.cpus[d], l) <==> Holding(s, d, l);
    assert Holds(s.cpus[c], l) <==> Holding(s, c, l);
  }

  lemma LocksKept(s: State, c: nat, a: Action, on: bool)
    requires MayStep(s, c, a) && PlacedInv(s) && LocksInv(s)
    ensures Shape(Apply(s, c, a, on)) && LocksInv(Apply(s, c, a, on))
  {
    var s' := Apply(s, c, a, on);
    assert Placed(s.cpus[c]);
    LineLocks(s, s.cpus[c], a, SavedContext(s, s.cpus[c]), on);
    OwnersKept(s, c, a, s'.cpus[c], on);
    DepthKept(s.cpus[c], a, SavedContext(s, s.cpus[c]), on);
  }

  lemma OwnersKept(s: State, c: nat, a: Action, cpu': Cpu, on: bool)
    requires Shape(s) && c < NCPU && !Blocked(s, a) && LocksInv(s) && LockChange(Held(s.cpus[c]), Held(cpu'), a)
    requires cpu' == Apply(s, c, a, on).cpus[c]
    ensures var s' := Apply(s, c, a, on);
      forall d, l :: 0 <= d < NCPU ==> (Holds(s'.cpus[d], l) <==> Holding(s', d, l))
  {
    var s' := Apply(s, c, a, on);
    forall d, l | 0 <= d < NCPU ensures Holds(s'.cpus[d], l) <==> Holding(s', d, l) {
      OwnerChange(s, c, a, cpu', d, l);
    }
  }

  // push_off and pop_off count the locks.
  lemma DepthKept(cpu: Cpu, a: Action, k: Context, on: bool)
    requires cpu.noff == Count(Held(cpu)) && (cpu.noff > 0 ==> !cpu.intr)
    requires LockChange(Held(cpu), Held(NewCpu(cpu, a, k, on)), a)
    ensures var cpu' := NewCpu(cpu, a, k, on); cpu'.noff == Count(Held(cpu')) && (cpu'.noff > 0 ==> !cpu'.intr)
  {
  }

  // ----- subjects -----

  // The process a CPU works on: the one it runs, or has just chosen to run.
  function Subject(cpu: Cpu): Option<nat> {
    if cpu.pc.Sched? && cpu.pc.s == SchedChosen then Some(cpu.pc.i) else cpu.proc
  }

  // What goes on beneath interrupts and inner locks.
  function Base(pc: Pc): Pc {
    match pc
    case YieldHeld(at) => at
    case AtSched(k) => if k.AfterYield? then k.at else pc
    case Resumed(k) => if k.AfterYield? then k.at else pc
    case Locked(_, back) => back
    case Wake(_, _, _, ret) => if ret.ToLocked? then ret.back else pc
    case Inside(at, _) => if at.Locked? then at.back else at
    case _ => pc
  }

  // The process being created.
  function Creates(pc: Pc): Option<nat> {
    Starts(Base(pc))
  }

  function Starts(base: Pc): Option<nat> {
    if base.Alloc? && base.l == AllocUsed then Some(base.i)
    else if base.Fork? && base.f != ForkDone then Some(base.np) else None
  }

  // The state a pc implies for its subject.
  predicate Fits(pc: Pc, st: ProcState) {
    match pc
    case AtSched(k) => (k.AfterYield? && st == RUNNABLE) || (k.AfterSleep? && st == SLEEPING)
      || (k.AfterExit? && st == ZOMBIE)
    case Exit(at, _) => st == if at == ExitRelease then ZOMBIE else RUNNING
    case Sched(at, _) => (st == RUNNING) == (at != SchedBack)
    case _ => st == RUNNING
  }

  // The state changes there are, each made with the process's lock held.
  predicate Marks(cpu: Cpu, x: nat, from: ProcState, to: ProcState) {
    || (from == RUNNABLE && to == RUNNING && Subject(cpu) == None)
    || (from == RUNNING && Subject(cpu) == Some(x) && to in {RUNNABLE, SLEEPING, ZOMBIE})
    || (from == SLEEPING && to == RUNNABLE)
    || (from == UNUSED && to == USED)
    || (from == USED && to == RUNNABLE && Creates(cpu.pc) == Some(x))
    || (from == USED && to == UNUSED && Creates(cpu.pc) == Some(x))
    || (from == ZOMBIE && to == UNUSED)
  }

  ghost predicate FitsIn(cpu: Cpu, procs: seq<Proc>) {
    Subject(cpu).Some? ==> Subject(cpu).value < |procs| && Fits(cpu.pc, procs[Subject(cpu).value].state)
  }

  ghost predicate SubjectInv(s: State)
    requires Shape(s)
  {
    && (forall c :: 0 <= c < NCPU ==> FitsIn(s.cpus[c], s.procs))
    && (forall c, d :: 0 <= c < d < NCPU ==> Apart(s.cpus[c], s.cpus[d]))
  }

  // Two CPUs do not work on the same process.
  predicate Apart(cpu: Cpu, cpu': Cpu) {
    Subject(cpu).Some? ==> Subject(cpu) != Subject(cpu')
  }

  // A subject that is not running is locked.
  lemma FirmSubject(cpu: Cpu, st: ProcState)
    requires Placed(cpu) && Subject(cpu).Some? && Fits(cpu.pc, st) && st != RUNNING
    ensures Holds(cpu, ProcLock(Subject(cpu).value))
  {
  }

  lemma LineMarks(s: State, cpu: Cpu, a: Action)
    requires |s.procs| == NPROC && Placed(cpu) && Allowed(s, cpu, a) && a.Put? && a.w.NewState? && FitsIn(cpu, s.procs)
    requires Creates(cpu.pc).Some? ==> s.procs[Creates(cpu.pc).value].state == USED
    ensures a.p < NPROC && Holds(cpu, ProcLock(a.p)) && Marks(cpu, a.p, s.procs[a.p].state, a.w.st)
  {
  }

  lemma LineClears(s: State, cpu: Cpu, a: Action)
    requires |s.procs| == NPROC && Placed(cpu) && Allowed(s, cpu, a) && a.Put? && a.w.Cleared?
    requires Creates(cpu.pc).Some? ==> s.procs[Creates(cpu.pc).value].state == USED
    ensures a.p < NPROC && Holds(cpu, ProcLock(a.p)) && Marks(cpu, a.p, s.procs[a.p].state, UNUSED)
  {
  }

  // After a line its own CPU's pc fits again, and its subject is the old one, none, or one newly chosen.
  lemma MoveFits(s: State, cpu: Cpu, a: Action, k: Context, on: bool)
    requires |s.procs| == NPROC && Placed(cpu) && Allowed(s, cpu, a) && FitsIn(cpu, s.procs) && a.Move?
    ensures Subject(NewCpu(cpu, a, k, on)) == Subject(cpu) && FitsIn(NewCpu(cpu, a, k, on), s.procs)
  {
  }

  lemma AcquireFits(s: State, cpu: Cpu, a: Action, k: Context, on: bool)
    requires |s.procs| == NPROC && Placed(cpu) && Allowed(s, cpu, a) && FitsIn(cpu, s.procs) && a.Acquire?
    ensures Subject(NewCpu(cpu, a, k, on)) == Subject(cpu) && FitsIn(NewCpu(cpu, a, k, on), s.procs)
  {
  }

  lemma ReleaseFits(s: State, cpu: Cpu, a: Action, k: Context, on: bool)
    requires |s.procs| == NPROC && Placed(cpu) && Allowed(s, cpu, a) && FitsIn(cpu, s.procs) && a.Release?
    ensures Subject(NewCpu(cpu, a, k, on)) == Subject(cpu) && FitsIn(NewCpu(cpu, a, k, on), s.procs)
  {
  }

  lemma SwitchFits(s: State, cpu: Cpu, a: Action, k: Context, on: bool)
    requires |s.procs| == NPROC && Placed(cpu) && Allowed(s, cpu, a) && FitsIn(cpu, s.procs)
    requires (a.SetProc? || a.SwitchIn? || a.SwitchOut?)
    ensures var cpu' := NewCpu(cpu, a, k, on);
      (Subject(cpu') == Subject(cpu) || Subject(cpu') == None) && FitsIn(cpu', NewProcs(s.procs, cpu, a))
  {
  }

  lemma MarkFits(s: State, cpu: Cpu, a: Action, k: Context, on: bool)
    requires |s.procs| == NPROC && Placed(cpu) && Allowed(s, cpu, a) && FitsIn(cpu, s.procs) && a.Put? && a.w.NewState?
    requires Creates(cpu.pc).Some? ==> s.procs[Creates(cpu.pc).value].state == USED
    ensures var cpu' := NewCpu(cpu, a, k, on);
      && FitsIn(cpu', NewProcs(s.procs, cpu, a))
      && (Subject(cpu') == Subject(cpu) || (a.w.st == RUNNING && Subject(cpu) == None && Subject(cpu') == Some(a.p)))
  {
    if Subject(cpu).Some? { MarkKeepsFit(s, cpu, a, Subject(cpu).value); } else { Chooses(s, cpu, a); }
  }

  lemma MarkKeepsFit(s: State, cpu: Cpu, a: Action, x: nat)
    requires |s.procs| == NPROC && Placed(cpu) && Allowed(s, cpu, a) && a.Put? && a.w.NewState?
    requires Subject(cpu) == Some(x) && x < NPROC && Fits(cpu.pc, s.procs[x].state)
    requires Creates(cpu.pc).Some? ==> s.procs[Creates(cpu.pc).value].state == USED
    ensures Subject(cpu.(pc := a.pc)) == Some(x) && Fits(a.pc, if x == a.p then a.w.st else s.procs[x].state)
  {
  }

  // A scheduler gets a subject by marking it RUNNING.
  lemma Chooses(s: State, cpu: Cpu, a: Action)
    requires |s.procs| == NPROC && Placed(cpu) && Allowed(s, cpu, a) && a.Put? && a.w.NewState? && Subject(cpu) == None
    ensures var subject := Subject(cpu.(pc := a.pc));
      subject.Some? ==> a.p < NPROC && subject == Some(a.p) && a.w.st == RUNNING && Fits(a.pc, RUNNING)
  {
  }

  lemma PutFits(s: State, cpu: Cpu, a: Action, k: Context, on: bool)
    requires |s.procs| == NPROC && Placed(cpu) && Allowed(s, cpu, a) && FitsIn(cpu, s.procs) && a.Put? && !a.w.NewState?
    requires Creates(cpu.pc).Some? ==> s.procs[Creates(cpu.pc).value].state == USED
    ensures var cpu' := NewCpu(cpu, a, k, on);
      FitsIn(cpu', NewProcs(s.procs, cpu, a)) && Subject(cpu') == Subject(cpu)
  {
    WriteKeepsFit(s, cpu, a);
  }

  lemma WriteKeepsFit(s: State, cpu: Cpu, a: Action)
    requires |s.procs| == NPROC && Placed(cpu) && Allowed(s, cpu, a) && FitsIn(cpu, s.procs) && a.Put? && !a.w.NewState?
    requires Creates(cpu.pc).Some? ==> s.procs[Creates(cpu.pc).value].state == USED
    ensures Subject(cpu.(pc := a.pc)) == Subject(cpu) && (a.w.Cleared? ==> Subject(cpu) != Some(a.p))
    ensures Subject(cpu).Some? ==> Fits(a.pc, s.procs[Subject(cpu).value].state)
  {
  }

  // ----- subjects are kept -----

  // Whoever is creating a process, on a CPU or switched out, took its entry in allocproc.
  ghost predicate Makes(procs: seq<Proc>, p: Option<nat>, np: nat) {
    np < |procs| && procs[np].state == USED && procs[np].maker == p
  }

  // The process being created by one that is switched out.
  function Saved(k: Context): Option<nat> {
    if k.AfterYield? then Starts(k.at) else None
  }

  ghost predicate UsedInv(s: State)
    requires Shape(s)
  {
    && (forall c :: 0 <= c < NCPU && Creates(s.cpus[c].pc).Some? ==>
           Makes(s.procs, s.cpus[c].proc, Creates(s.cpus[c].pc).value))
    && (forall p :: 0 <= p < NPROC && Saved(s.procs[p].context).Some? ==>
           Makes(s.procs, Some(p), Saved(s.procs[p].context).value))
  }

  // A process's context is in a CPU's registers exactly while its CPU runs it.
  ghost predicate Loads(cpu: Cpu, procs: seq<Proc>) {
    Subject(cpu).Some? && Subject(cpu).value < |procs| ==>
      (procs[Subject(cpu).value].context == Loaded <==> !cpu.pc.Sched?)
  }

  // Once it is not RUNNING any more, that CPU holds its lock.
  ghost predicate LoadedBy(s: State, p: nat)
    requires Shape(s) && p < NPROC
  {
    s.procs[p].context == Loaded && s.procs[p].state != RUNNING ==>
      ProcLock(p) in s.owner && s.owner[ProcLock(p)] < NCPU && Subject(s.cpus[s.owner[ProcLock(p)]]) == Some(p)
  }

  ghost predicate LoadedInv(s: State)
    requires Shape(s)
  {
    && (forall c :: 0 <= c < NCPU ==> Loads(s.cpus[c], s.procs))
    && (forall p :: 0 <= p < NPROC ==> LoadedBy(s, p))
  }

  ghost predicate Core(s: State) {
    Shape(s) && PlacedInv(s) && LocksInv(s) && SubjectInv(s) && UsedInv(s) && LoadedInv(s)
  }

  // A process that is not running and whose lock one CPU holds is no other CPU's subject.
  lemma NotTheirs(s: State, c: nat, d: nat, x: nat)
    requires Core(s) && c < NCPU && d < NCPU && c != d && x < NPROC
    requires Holds(s.cpus[c], ProcLock(x)) && s.procs[x].state != RUNNING
    ensures Subject(s.cpus[d]) != Some(x)
  {
    assert FitsIn(s.cpus[d], s.procs) && Holding(s, c, ProcLock(x));
    assert Holds(s.cpus[d], ProcLock(x)) <==> Holding(s, d, ProcLock(x));
    if Subject(s.cpus[d]) == Some(x) {
      FirmSubject(s.cpus[d], s.procs[x].state);
    }
  }

  lemma SubjectsApart(s: State, c: nat, d: nat)
    requires Core(s) && c < NCPU && d < NCPU && c != d && Subject(s.cpus[c]).Some?
    ensures Subject(s.cpus[c]) != Subject(s.cpus[d])
  {
    assert c < d ==> Apart(s.cpus[c], s.cpus[d]);
    assert d < c ==> Apart(s.cpus[d], s.cpus[c]);
  }

  lemma CreatorRuns(cpu: Cpu)
    requires Placed(cpu) && Creates(cpu.pc).Some?
    ensures cpu.proc.Some? && Subject(cpu) == cpu.proc && !cpu.pc.Sched?
  {
  }

  lemma ChildrenApart(s: State, c: nat, d: nat)
    requires Core(s) && c < NCPU && d < NCPU && c != d && Creates(s.cpus[c].pc).Some?
    ensures Creates(s.cpus[c].pc) != Creates(s.cpus[d].pc)
  {
    CreatorRuns(s.cpus[c]);
    if Creates(s.cpus[d].pc).Some? { CreatorRuns(s.cpus[d]); }
    SubjectsApart(s, c, d);
  }

  // No CPU is creating what a process that is switched out is creating.
  lemma SavedApart(s: State, c: nat, p: nat)
    requires Core(s) && c < NCPU && p < NPROC && Saved(s.procs[p].context).Some?
    ensures Creates(s.cpus[c].pc) != Saved(s.procs[p].context)
  {
    if Creates(s.cpus[c].pc).Some? { CreatorRuns(s.cpus[c]); }
    assert Loads(s.cpus[c], s.procs);
  }

  // ----- what a step may do -----

  // How the parent of process `x` changes, always under wait_lock.
  predicate Adopts(cpu: Cpu, x: nat, was: Proc, parent': Option<nat>, init: nat) {
    && cpu.proc.Some? && Holds(cpu, WaitLock)
    && ((parent' == None && was.state == ZOMBIE && cpu.pc.Wait?)
        || (cpu.pc == Fork(ForkLink, x) && parent' == cpu.proc)
        || (cpu.pc == Exit(Reparent, x) && was.parent == cpu.proc && parent' == Some(init)))
  }

  // What a CPU must be at to make each write.
  ghost predicate Writes(cpu: Cpu, p: nat, was: Proc, w: Write, init: nat) {
    match w
    case NewState(st) =>
      && st != UNUSED && Holds(cpu, ProcLock(p)) && Marks(cpu, p, was.state, st)
      && (was.state == USED ==> cpu.pc == Fork(ForkMark, p))
      && (st == ZOMBIE ==> cpu.pc.Exit? && cpu.pc.e == ExitMark && cpu.proc == Some(p) && Holds(cpu, WaitLock))
      && (st == SLEEPING ==> cpu.pc.Sleep? && cpu.pc.z == SleepMark && cpu.proc == Some(p))
    case Cleared =>
      && Holds(cpu, ProcLock(p)) && Marks(cpu, p, was.state, UNUSED)
      && (was.parent != None ==> Adopts(cpu, p, was, None, init))
    case NewParent(q) => was.parent != Some(q) ==> Adopts(cpu, p, was, Some(q), init)
    case NewContext => Creates(cpu.pc) == Some(p)
    case NewChan(_) => cpu.proc == Some(p) && (cpu.pc.Sleep? || cpu.pc.Resumed?)
    case NowKilled => true
  }

  // What is known of an action whatever line it is.
  ghost predicate Deed(s: State, c: nat, a: Action) {
    && Shape(s) && c < NCPU && var cpu := s.cpus[c];
    match a
    case Put(p, w, _) => p < NPROC && Writes(cpu, p, s.procs[p], w, s.init)
    case SwitchIn => cpu.proc.Some? && cpu.pc.Sched? && cpu.pc.s == SchedSwitch
    case SwitchOut => cpu.proc.Some? && cpu.pc.AtSched?
    case _ => true
  }

  // How a step changes the state of process `x`, if it does.
  lemma StateChange(s: State, c: nat, a: Action, on: bool, x: nat)
    requires Deed(s, c, a) && x < NPROC
    ensures var (st, st') := (s.procs[x].state, Apply(s, c, a, on).procs[x].state);
      st' != st ==> Holds(s.cpus[c], ProcLock(x)) && Marks(s.cpus[c], x, st, st')
    ensures Apply(s, c, a, on).procs[x].maker != s.procs[x].maker ==> s.procs[x].state == UNUSED
  {
  }

  // The state of another CPU's subject, or of the process it is creating, is out of reach.
  lemma TheirsStay(s: State, c: nat, a: Action, on: bool, d: nat, x: nat)
    requires Core(s) && Deed(s, c, a) && d < NCPU && d != c && x < NPROC
    requires Subject(s.cpus[d]) == Some(x) || Creates(s.cpus[d].pc) == Some(x)
    ensures Apply(s, c, a, on).procs[x].state == s.procs[x].state
  {
    StateChange(s, c, a, on, x);
    if Apply(s, c, a, on).procs[x].state != s.procs[x].state {
      if Subject(s.cpus[d]) == Some(x) {
        SubjectsApart(s, d, c);
        if s.procs[x].state != RUNNING { NotTheirs(s, c, d, x); }
      } else {
        ChildrenApart(s, d, c);
      }
    }
  }

  lemma SavedStays(s: State, c: nat, a: Action, on: bool, p: nat)
    requires Core(s) && Deed(s, c, a) && p < NPROC && Saved(s.procs[p].context).Some?
    ensures var np := Saved(s.procs[p].context).value;
      np < NPROC && Apply(s, c, a, on).procs[np].state == s.procs[np].state == USED
  {
    SavedApart(s, c, p);
    StateChange(s, c, a, on, Saved(s.procs[p].context).value);
  }

  lemma OwnSubject(s: State, c: nat, a: Action, on: bool)
    requires Core(s) && MayStep(s, c, a)
    ensures var (cpu, s') := (s.cpus[c], Apply(s, c, a, on));
      && FitsIn(s'.cpus[c], s'.procs)
      && (Subject(s'.cpus[c]) == Subject(cpu) || Subject(s'.cpus[c]) == None
          || (a.Put? && a.w == NewState(RUNNING) && Subject(cpu) == None && Subject(s'.cpus[c]) == Some(a.p)))
  {
    var cpu, k := s.cpus[c], SavedContext(s, s.cpus[c]);
    assert FitsIn(cpu, s.procs);
    match a
    case Put(_, NewState(_), _) => MarkFits(s, cpu, a, k, on);
    case Put(_, _, _) => PutFits(s, cpu, a, k, on);
    case SetProc(_, _) => SwitchFits(s, cpu, a, k, on);
    case SwitchIn => SwitchFits(s, cpu, a, k, on);
    case SwitchOut => SwitchFits(s, cpu, a, k, on);
    case Move(_) => MoveFits(s, cpu, a, k, on);
    case Acquire(_, _) => AcquireFits(s, cpu, a, k, on);
    case Release(_, _) => ReleaseFits(s, cpu, a, k, on);
  }

  lemma SubjectsKept(s: State, c: nat, a: Action, on: bool)
    requires Core(s) && MayStep(s, c, a) && Deed(s, c, a)
    ensures Shape(Apply(s, c, a, on)) && SubjectInv(Apply(s, c, a, on))
  {
    var s' := Apply(s, c, a, on);
    OwnSubject(s, c, a, on);
    forall d | 0 <= d < NCPU && d != c
      ensures FitsIn(s'.cpus[d], s'.procs) && (Subject(s'.cpus[d]).Some? ==> Subject(s'.cpus[d]) != Subject(s'.cpus[c]))
    {
      OtherSubject(s, c, a, on, d);
    }
    forall d, e | 0 <= d < e < NCPU ensures Apart(s'.cpus[d], s'.cpus[e]) {
      assert d != c && e != c ==> Apart(s.cpus[d], s.cpus[e]);
    }
  }

  lemma OtherSubject(s: State, c: nat, a: Action, on: bool, d: nat)
    requires Core(s) && MayStep(s, c, a) && Deed(s, c, a) && d < NCPU && d != c
    ensures var s' := Apply(s, c, a, on);
      FitsIn(s.cpus[d], s'.procs) && (Subject(s.cpus[d]).Some? ==> Subject(s.cpus[d]) != Subject(s'.cpus[c]))
  {
    assert FitsIn(s.cpus[d], s.procs);
    OwnSubject(s, c, a, on);
    if Subject(s.cpus[d]).Some? {
      var x := Subject(s.cpus[d]).value;
      TheirsStay(s, c, a, on, d, x);
      SubjectsApart(s, d, c);
      StateChange(s, c, a, on, x);
    }
  }
}
