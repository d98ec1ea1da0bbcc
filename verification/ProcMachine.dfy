/**
 proc.c and spinlock.c as a machine of interleaved steps.  Every CPU runs either
 its scheduler or the kernel side of one process, and its pc says which line it
 is about to execute.  One step acquires or releases one spinlock, writes one
 field of one process, or switches between a scheduler and a process.  At every pc
 without a lock an interrupt may come in: a device's, whose handler takes a lock and
 wakes sleepers, or the timer's, which makes a process yield there and go on there.
 */
module ProcMachine {
  import opened Common

  const NPROC: nat := 64
  const NCPU: nat := 8

  datatype ProcState = UNUSED | USED | SLEEPING | RUNNABLE | RUNNING | ZOMBIE

  // What a process sleeps on: its own entry in the table, in wait(), or some other address.  Each of the kernel's other
  // channels has one lock under which processes sleep on it and are woken.
  datatype Chan = NoChan | WaitChan(waiter: nat) | Event(address: nat, lock: nat)

  // p->lock for each process, wait_lock, and the locks of the rest of the kernel: those it sleeps and wakes under, and
  // those it takes beneath other locks (pid_lock, kmem.lock, ftable.lock, itable.lock, bcache.lock).
  datatype Lock = ProcLock(of: nat) | WaitLock | Other(id: nat) | Inner(id: nat)

  // Where a process goes on after swtch gives it a CPU.  A context that is loaded is in the CPU's registers.
  datatype Context = Forkret | AfterYield(at: Pc) | AfterSleep(chan: Chan, lk: Lock) | AfterExit | Loaded

  // Where wakeup returns to.
  datatype Ret = ToLocked(id: nat, back: Pc) | ToReparent(i: nat) | ToExit

  // The lines of each function: before acquiring a lock, holding it, after a write, about to release, and so on.
  datatype SchedAt = SchedLoop | SchedHeld | SchedChosen | SchedSwitch | SchedBack | SchedDone
  datatype SleepAt = SleepEnter | SleepHeld | SleepReady | SleepMark | SleepTidy | SleepReacquire
  datatype WakeAt = WakeNext | WakeHeld | WakeDone
  datatype AllocAt = AllocScan | AllocHeld | AllocSkip | AllocUsed | AllocFail
  datatype ForkAt = ForkCopied | ForkWait | ForkLink | ForkLinked | ForkStart | ForkMark | ForkDone
  datatype ExitAt = Reparent | ExitLock | ExitMark | ExitRelease
  datatype WaitAt = WaitScan | WaitCheck | WaitSkip | WaitReap | WaitOut | WaitKilled | WaitAsked
  datatype KillAt = KillScan | KillHeld | KillWake | KillDone | KillSkip

  datatype Pc =
    | Sched(s: SchedAt, i: nat)
    | Run                                        // a process without spinlocks
    | Locked(id: nat, back: Pc)                  // with a lock of the rest of the kernel; after it, at `back`
    | Inside(at: Pc, lock: Lock)                 // at `at`, with an inner lock or the process's own besides
    | AtSched(k: Context)                        // in sched, about to switch
    | Resumed(k: Context)                        // switched to
    | YieldHeld(at: Pc)                          // in yield, called or interrupted at `at`
    | Sleep(z: SleepAt, chan: Chan, lk: Lock)
    | Wake(w: WakeAt, chan: Chan, i: nat, ret: Ret)
    | Alloc(l: AllocAt, i: nat)                  // allocproc, called from fork
    | Fork(f: ForkAt, np: nat)
    | Exit(e: ExitAt, i: nat)                    // exit and reparent
    | Wait(t: WaitAt, i: nat, flag: bool)        // flag: children seen, or killed
    | Kill(x: KillAt, i: nat)

  // maker is a history variable: the process that last took this entry in allocproc.
  datatype Proc = Proc(state: ProcState, chan: Chan, parent: Option<nat>, killed: bool,
                       context: Context, maker: Option<nat>)

  // proc is c->proc, noff the nesting depth of push_off, intr whether interrupts are on.
  datatype Cpu = Cpu(proc: Option<nat>, pc: Pc, noff: nat, intr: bool)

  // owner is lk->cpu for every lock that is locked; init is initproc.
  datatype State = State(procs: seq<Proc>, cpus: seq<Cpu>, owner: map<Lock, nat>, init: nat)

  ghost predicate Shape(s: State) {
    |s.procs| == NPROC && |s.cpus| == NCPU && s.init < NPROC
  }

  // A write to a process's entry in the table.
  datatype Write = NewState(st: ProcState) | NewChan(chan: Chan) | NewParent(q: nat) | NowKilled | NewContext | Cleared

  datatype Action =
    | Move(pc: Pc)
    | Acquire(lock: Lock, pc: Pc)
    | Release(lock: Lock, pc: Pc)
    | Put(p: nat, w: Write, pc: Pc)
    | SetProc(proc: Option<nat>, pc: Pc)
    | SwitchIn
    | SwitchOut

  function SetState(p: nat, st: ProcState, pc: Pc): Action { Put(p, NewState(st), pc) }

  function Return(r: Ret): Pc {
    match r
    case ToLocked(id, back) => Locked(id, back)
    case ToReparent(i) => Exit(Reparent, i + 1)
    case ToExit => Exit(ExitLock, 0)
  }

  // Where no spinlock is held.
  predicate LockFree(pc: Pc) {
    match pc
    case Sched(at, _) => at == SchedLoop
    case Run => true
    case Sleep(at, _, _) => at == SleepReacquire
    case Alloc(at, _) => at == AllocScan
    case Fork(at, _) => at == ForkWait || at == ForkStart
    case Kill(at, _) => at == KillScan
    case _ => false
  }

  // What a CPU may do next: one line of the kernel for each pc, or take an interrupt.
  predicate Allowed(s: State, cpu: Cpu, a: Action)
    requires |s.procs| == NPROC
  {
    match cpu.proc
    case None => Interrupts(cpu, a) || SchedAllowed(s, cpu.pc, a)
    case Some(p) => p < NPROC && (Interrupts(cpu, a) || TakesInside(p, cpu.pc, a) || ProcAllowed(s, p, cpu.pc, a))
  }

  predicate Interrupts(cpu: Cpu, a: Action) {
    && a.Acquire? && cpu.intr && LockFree(cpu.pc)
    && (TakesLock(cpu.pc, a) || (cpu.proc.Some? && Yields(cpu.proc.value, cpu.pc, a)))
  }

  // A system call, or the handler of a device's interrupt at `pc`, takes one of the kernel's locks.
  predicate TakesLock(pc: Pc, a: Action) {
    a.Acquire? && a.lock.Other? && a.pc == Locked(a.lock.id, pc)
  }

  // The timer interrupts process `p` at `pc`.
  predicate Yields(p: nat, pc: Pc, a: Action) {
    a == Acquire(ProcLock(p), YieldHeld(pc))
  }

  // Allocating and freeing pages, pids, files and inodes, and pinning buffers, with other locks held or none; and
  // killed() and setkilled(), alone or beneath one of the kernel's locks.
  predicate TakesInside(p: nat, pc: Pc, a: Action) {
    a.Acquire? && a.pc == Inside(pc, a.lock) && CanEnter(p, pc, a.lock)
  }

  predicate CanEnter(p: nat, pc: Pc, lock: Lock) {
    match lock
    case Inner(_) => pc.Run? || pc.Locked? || (pc.Alloc? && pc.l == AllocUsed) || (pc.Fork? && pc.f == ForkCopied)
      || (pc.Wait? && pc.t == WaitCheck)
    case ProcLock(x) => x == p && (pc.Run? || (pc.Locked? && pc.back == Run))
    case _ => false
  }

  predicate ProcAllowed(s: State, p: nat, pc: Pc, a: Action)
    requires |s.procs| == NPROC && p < NPROC
  {
    match pc
    case Sched(_, _) => SwitchAllowed(s, p, pc, a)
    case AtSched(_) => SwitchAllowed(s, p, pc, a)
    case Resumed(_) => SwitchAllowed(s, p, pc, a)
    case Run => RunAllowed(s, p, a)
    case YieldHeld(at) => a == SetState(p, RUNNABLE, AtSched(AfterYield(at)))
    case Locked(id, back) => LockedAllowed(id, back, a)
    case Inside(at, lock) => a == Release(lock, at) || (at == Run && lock == ProcLock(p) && a == Put(p, NowKilled, pc))
    case Sleep(at, chan, lk) => SleepAllowed(p, at, chan, lk, a)
    case Wake(at, chan, i, ret) => WakeAllowed(s, Some(p), at, chan, i, ret, a)
    case Alloc(at, i) => AllocAllowed(s, at, i, a)
    case Fork(at, np) => ForkAllowed(p, at, np, a)
    case Exit(at, i) => ExitAllowed(s, p, at, i, a)
    case Wait(at, i, flag) => WaitAllowed(s, p, at, i, flag, a)
    case Kill(at, i) => KillAllowed(s, at, i, a)
  }

  // A call of wakeup on an event, from an interrupt handler or the rest of the kernel.
  predicate CallsWakeup(a: Action, ret: Ret) {
    && a.Move? && a.pc.Wake? && a.pc.w == WakeNext && a.pc.i == 0 && a.pc.ret == ret
    && ret.ToLocked? && a.pc.chan.Event? && a.pc.chan.lock == ret.id
  }

  // scheduler, up to setting c->proc, and the handlers of its interrupts.
  predicate SchedAllowed(s: State, pc: Pc, a: Action)
    requires |s.procs| == NPROC
  {
    match pc
    case Locked(id, back) => a == Release(Other(id), back) || CallsWakeup(a, ToLocked(id, back))
    case Wake(at, chan, i, ret) => WakeAllowed(s, None, at, chan, i, ret, a)
    case Sched(at, i) => (match at
      case SchedLoop => a == if i < NPROC then Acquire(ProcLock(i), Sched(SchedHeld, i)) else Move(Sched(SchedLoop, 0))
      case SchedHeld => i < NPROC &&
        a == if s.procs[i].state == RUNNABLE then SetState(i, RUNNING, Sched(SchedChosen, i))
             else Move(Sched(SchedDone, i))
      case SchedChosen => a == SetProc(Some(i), Sched(SchedSwitch, i))
      case SchedDone => a == Release(ProcLock(i), Sched(SchedLoop, i + 1))
      case _ => false)
    case _ => false
  }

  // The two swtch calls, and the lines just after each.
  predicate SwitchAllowed(s: State, p: nat, pc: Pc, a: Action) {
    match pc
    case Sched(SchedSwitch, _) => a == SwitchIn
    case Sched(SchedBack, i) => a == SetProc(None, Sched(SchedDone, i))
    case AtSched(_) => a == SwitchOut
    case Resumed(AfterSleep(chan, lk)) => a == Put(p, NewChan(NoChan), Sleep(SleepTidy, chan, lk))
    case Resumed(AfterYield(at)) => a == Release(ProcLock(p), at)
    case Resumed(Forkret) => a == Release(ProcLock(p), Run)
    case _ => false
  }

  // Kernel code without a lock: yield, take some lock, fork, kill, wait or exit.
  predicate RunAllowed(s: State, p: nat, a: Action) {
    || Yields(p, Run, a) || TakesLock(Run, a)
    || a == Move(Alloc(AllocScan, 0)) || a == Move(Kill(KillScan, 0))
    || a == Acquire(WaitLock, Wait(WaitScan, 0, false))
    || (p != s.init && a == Acquire(WaitLock, Exit(Reparent, 0)))
  }

  // Kernel code with a lock of its own.  Interrupt handlers do not sleep.
  predicate LockedAllowed(id: nat, back: Pc, a: Action) {
    || a == Release(Other(id), back)
    || (back == Run && a.Move? && a.pc.Sleep? && a.pc.z == SleepEnter
        && a.pc.chan.Event? && a.pc.chan.lock == id && a.pc.lk == Other(id))
    || CallsWakeup(a, ToLocked(id, back))
  }

  predicate SleepAllowed(p: nat, at: SleepAt, chan: Chan, lk: Lock, a: Action) {
    match at
    case SleepEnter => a == Acquire(ProcLock(p), Sleep(SleepHeld, chan, lk))
    case SleepHeld => a == Release(lk, Sleep(SleepReady, chan, lk))
    case SleepReady => a == Put(p, NewChan(chan), Sleep(SleepMark, chan, lk))
    case SleepMark => a == SetState(p, SLEEPING, AtSched(AfterSleep(chan, lk)))
    case SleepTidy => a == Release(ProcLock(p), Sleep(SleepReacquire, chan, lk))
    case SleepReacquire => a == Acquire(lk, if lk.Other? then Locked(lk.id, Run) else Wait(WaitScan, 0, false))
  }

  predicate WakeAllowed(s: State, self: Option<nat>, at: WakeAt, chan: Chan, i: nat, ret: Ret, a: Action)
    requires |s.procs| == NPROC
  {
    match at
    case WakeNext =>
      if i >= NPROC then a == Move(Return(ret))
      else if self == Some(i) then a == Move(Wake(WakeNext, chan, i + 1, ret))
      else a == Acquire(ProcLock(i), Wake(WakeHeld, chan, i, ret))
    case WakeHeld => i < NPROC && var done := Wake(WakeDone, chan, i, ret);
      a == if s.procs[i].state == SLEEPING && s.procs[i].chan == chan then SetState(i, RUNNABLE, done) else Move(done)
    case WakeDone => a == Release(ProcLock(i), Wake(WakeNext, chan, i + 1, ret))
  }

  predicate AllocAllowed(s: State, at: AllocAt, i: nat, a: Action)
    requires |s.procs| == NPROC
  {
    match at
    case AllocScan => a == if i < NPROC then Acquire(ProcLock(i), Alloc(AllocHeld, i)) else Move(Run)
    case AllocHeld => i < NPROC &&
      a == if s.procs[i].state == UNUSED then SetState(i, USED, Alloc(AllocUsed, i)) else Move(Alloc(AllocSkip, i))
    case AllocSkip => a == Release(ProcLock(i), Alloc(AllocScan, i + 1))
    case AllocUsed => a == Put(i, NewContext, Fork(ForkCopied, i)) || a == Put(i, Cleared, Alloc(AllocFail, i))
    case AllocFail => a == Release(ProcLock(i), Run)
  }

  predicate ForkAllowed(p: nat, at: ForkAt, i: nat, a: Action) {
    match at
    case ForkCopied => a == Release(ProcLock(i), Fork(ForkWait, i)) || a == Put(i, Cleared, Alloc(AllocFail, i))
    case ForkWait => a == Acquire(WaitLock, Fork(ForkLink, i))
    case ForkLink => a == Put(i, NewParent(p), Fork(ForkLinked, i))
    case ForkLinked => a == Release(WaitLock, Fork(ForkStart, i))
    case ForkStart => a == Acquire(ProcLock(i), Fork(ForkMark, i))
    case ForkMark => a == SetState(i, RUNNABLE, Fork(ForkDone, i))
    case ForkDone => a == Release(ProcLock(i), Run)
  }

  predicate ExitAllowed(s: State, p: nat, at: ExitAt, i: nat, a: Action)
    requires |s.procs| == NPROC && p < NPROC
  {
    match at
    case Reparent =>
      if i >= NPROC then s.procs[p].parent.Some? &&
        a == Move(Wake(WakeNext, WaitChan(s.procs[p].parent.value), 0, ToExit))
      else if s.procs[i].parent == Some(p) then
        a == Put(i, NewParent(s.init), Wake(WakeNext, WaitChan(s.init), 0, ToReparent(i)))
      else a == Move(Exit(Reparent, i + 1))
    case ExitLock => a == Acquire(ProcLock(p), Exit(ExitMark, i))
    case ExitMark => a == SetState(p, ZOMBIE, Exit(ExitRelease, i))
    case ExitRelease => a == Release(WaitLock, AtSched(AfterExit))
  }

  predicate WaitAllowed(s: State, p: nat, at: WaitAt, i: nat, flag: bool, a: Action)
    requires |s.procs| == NPROC && p < NPROC
  {
    match at
    case WaitScan =>
      if i >= NPROC then a == if flag then Acquire(ProcLock(p), Wait(WaitKilled, i, flag))
                          else Move(Wait(WaitOut, i, flag))
      else a == if s.procs[i].parent == Some(p) then Acquire(ProcLock(i), Wait(WaitCheck, i, flag))
                else Move(Wait(WaitScan, i + 1, flag))
    case WaitCheck => i < NPROC &&
      if s.procs[i].state == ZOMBIE then a == Put(i, Cleared, Wait(WaitReap, i, flag))
                                        || a == Move(Wait(WaitReap, i, flag))
      else a == Move(Wait(WaitSkip, i, flag))
    case WaitSkip => a == Release(ProcLock(i), Wait(WaitScan, i + 1, true))
    case WaitReap => a == Release(ProcLock(i), Wait(WaitOut, i, flag))
    case WaitOut => a == Release(WaitLock, Run)
    case WaitKilled => a == Move(Wait(WaitAsked, i, s.procs[p].killed))
    case WaitAsked => a == Release(ProcLock(p),
      if flag then Wait(WaitOut, i, flag) else Sleep(SleepEnter, WaitChan(p), WaitLock))
  }

  // Whether the pid matches is left open.
  predicate KillAllowed(s: State, at: KillAt, i: nat, a: Action)
    requires |s.procs| == NPROC
  {
    match at
    case KillScan => a == if i < NPROC then Acquire(ProcLock(i), Kill(KillHeld, i)) else Move(Run)
    case KillHeld => a == Put(i, NowKilled, Kill(KillWake, i)) || a == Move(Kill(KillSkip, i))
    case KillWake => i < NPROC &&
      a == if s.procs[i].state == SLEEPING then SetState(i, RUNNABLE, Kill(KillDone, i)) else Move(Kill(KillDone, i))
    case KillDone => a == Release(ProcLock(i), Run)
    case KillSkip => a == Release(ProcLock(i), Kill(KillScan, i + 1))
  }

  // ----- effects -----

  predicate Holding(s: State, c: nat, lock: Lock) {
    lock in s.owner && s.owner[lock] == c
  }

  // The panics of acquire, release, pop_off and sched.
  predicate Panics(s: State, c: nat, a: Action)
    requires |s.procs| == NPROC && c < |s.cpus|
  {
    var cpu := s.cpus[c];
    match a
    case Acquire(lock, _) => Holding(s, c, lock)
    case Release(lock, _) => !Holding(s, c, lock) || cpu.intr || cpu.noff < 1
    case SwitchOut => cpu.proc.None? || cpu.proc.value >= NPROC || !Holding(s, c, ProcLock(cpu.proc.value))
      || cpu.noff != 1 || s.procs[cpu.proc.value].state == RUNNING || cpu.intr
    case _ => false
  }

  // An acquire waits until the lock is free.
  predicate Blocked(s: State, a: Action) {
    a.Acquire? && a.lock in s.owner
  }

  // `k` is the saved context of the CPU's process; `on` is what interrupts are once every push_off is undone.
  function NewCpu(cpu: Cpu, a: Action, k: Context, on: bool): Cpu {
    match a
    case Move(pc) => cpu.(pc := pc, intr := if cpu.noff == 0 then on else cpu.intr)
    case Acquire(_, pc) => cpu.(pc := pc, noff := cpu.noff + 1, intr := false)
    case Release(_, pc) =>
      cpu.(pc := pc, noff := if cpu.noff < 1 then 0 else cpu.noff - 1, intr := if cpu.noff <= 1 then on else cpu.intr)
    case SetProc(proc, pc) => cpu.(proc := proc, pc := pc)
    case SwitchIn => cpu.(pc := Resumed(k))
    case SwitchOut => cpu.(pc := Sched(SchedBack, if cpu.proc.Some? then cpu.proc.value else 0))
    case Put(_, _, pc) => cpu.(pc := pc)
  }

  function NewOwner(owner: map<Lock, nat>, c: nat, a: Action): map<Lock, nat> {
    match a
    case Acquire(lock, _) => owner[lock := c]
    case Release(lock, _) => owner - {lock}
    case _ => owner
  }

  // What process `self` writes.
  function Written(q: Proc, w: Write, self: Option<nat>): Proc {
    match w
    case NewState(st) => q.(state := st, maker := if st == USED then self else q.maker)
    case NewChan(chan) => q.(chan := chan)
    case NewParent(parent) => q.(parent := Some(parent))
    case NowKilled => q.(killed := true)
    case NewContext => q.(context := Forkret)
    case Cleared => q.(state := UNUSED, parent := None, chan := NoChan, killed := false)
  }

  function NewProcs(procs: seq<Proc>, cpu: Cpu, a: Action): seq<Proc> {
    match a
    case Put(p, w, _) => if p < |procs| then procs[p := Written(procs[p], w, cpu.proc)] else procs
    case SwitchIn => if cpu.proc.Some? && cpu.proc.value < |procs|
      then procs[cpu.proc.value := procs[cpu.proc.value].(context := Loaded)] else procs
    case SwitchOut => if cpu.proc.Some? && cpu.proc.value < |procs| && cpu.pc.AtSched?
      then procs[cpu.proc.value := procs[cpu.proc.value].(context := cpu.pc.k)] else procs
    case _ => procs
  }

  function SavedContext(s: State, cpu: Cpu): Context {
    if cpu.proc.Some? && cpu.proc.value < |s.procs| then s.procs[cpu.proc.value].context else AfterExit
  }

  function Apply(s: State, c: nat, a: Action, on: bool): State
    requires c < |s.cpus|
  {
    var cpu := s.cpus[c];
    State(NewProcs(s.procs, cpu, a), s.cpus[c := NewCpu(cpu, a, SavedContext(s, cpu), on)],
          NewOwner(s.owner, c, a), s.init)
  }

  // CPU `c` takes a step.
  ghost predicate Step(s: State, c: nat, a: Action, on: bool, s': State) {
    Shape(s) && c < NCPU && Allowed(s, s.cpus[c], a) && !Blocked(s, a) && s' == Apply(s, c, a, on)
  }

  // After userinit: init is runnable, no other process exists, and every CPU enters its scheduler.
  ghost predicate Boot(s: State) {
    && Shape(s) && s.owner == map[]
    && (forall c :: 0 <= c < NCPU ==>
           s.cpus[c].proc == None && s.cpus[c].pc == Sched(SchedLoop, 0) && s.cpus[c].noff == 0)
    && (forall p :: 0 <= p < NPROC ==> s.procs[p].parent == None && s.procs[p].context == Forkret)
    && (forall p :: 0 <= p < NPROC ==> s.procs[p].state == if p == s.init then RUNNABLE else UNUSED)
  }
}
