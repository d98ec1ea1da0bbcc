/**
 sleeplock.c on top of the process machine.  Each sleep lock has a spinlock of the
 kernel's and a channel guarded by it; acquiresleep, releasesleep and holdingsleep
 are sequences of the machine's lines with the accesses to lk->locked and lk->pid in
 between.  Everything else about the processes is as in the machine below.
 */
module SleepLock {
  import opened Common
  import opened ProcMachine
  import opened ProcInvariant
  import opened ProcParents
  import opened ProcSleep
  import opened ProcWait
  import opened ProcRuns

  // Where a process is in one of the functions, the spinlock held: about to test lk->locked, to set it, to clear it, to
  // wake the sleepers, or to let go of the spinlock.
  datatype Task = Idle | Test(id: nat) | Set(id: nat) | Clear(id: nat) | Rouse(id: nat) | Leave(id: nat)

  // `locks` are the spinlocks of sleep locks.  A process's entry in the table stands for its pid.  `held` is a history
  // variable: the sleep locks each process has acquired and not released.
  datatype Kernel = Kernel(s: State, locks: set<nat>, locked: set<nat>, pid: map<nat, nat>,
                           task: seq<Task>, held: seq<set<nat>>)

  // The address of a sleep lock, which its waiters sleep on.
  function ChanOf(id: nat): Chan { Event(0, id) }

  datatype Call = AcquireSleep | ReleaseSleep | HoldingSleep

  // A line of the machine, or one of the accesses to lk->locked.  `call` is the function a line enters, if it enters
  // one.
  datatype Act = Line(a: Action, on: bool, call: Call) | FindFree(id: nat) | SetLocked(id: nat) | ClearLocked(id: nat)

  ghost predicate Shaped(k: Kernel) {
    Shape(k.s) && |k.task| == NPROC && |k.held| == NPROC
  }

  // The CPU's process is at a line of one of the functions, with the spinlock held and no interrupt under way.
  predicate AtTask(k: Kernel, cpu: Cpu, task: Task) {
    && !task.Idle? && task.id in k.locks && cpu.pc == Locked(task.id, Run)
    && cpu.proc.Some? && cpu.proc.value < |k.task| && k.task[cpu.proc.value] == task
  }

  predicate Takes(k: Kernel, a: Action) {
    a.Acquire? && a.lock.Other? && a.lock.id in k.locks
  }

  // A line that takes the spinlock of a sleep lock: the first of a function, or the last of sleep().  Callers release
  // only what they hold.
  predicate MayTake(k: Kernel, cpu: Cpu, a: Action, call: Call)
    requires Takes(k, a)
  {
    && cpu.proc.Some? && cpu.proc.value < |k.task| && cpu.proc.value < |k.held|
    && if cpu.pc != Run then cpu.pc.Sleep?
       else k.task[cpu.proc.value].Idle? && (call.ReleaseSleep? ==> a.lock.id in k.held[cpu.proc.value])
  }

  // With the spinlock held a process does what the functions do.
  predicate MayGoOn(k: Kernel, cpu: Cpu, a: Action)
    requires cpu.pc.Locked?
  {
    var id := cpu.pc.id;
    || (AtTask(k, cpu, Test(id)) && id in k.locked && a == Action.Move(Sleep(SleepEnter, ChanOf(id), Other(id))))
    || (AtTask(k, cpu, Rouse(id)) && a == Action.Move(Wake(WakeNext, ChanOf(id), 0, ToLocked(id, Run))))
    || (AtTask(k, cpu, Leave(id)) && a == Release(Other(id), Run))
  }

  predicate Follows(k: Kernel, cpu: Cpu, a: Action, call: Call) {
    (Takes(k, a) ==> MayTake(k, cpu, a, call)) && (cpu.pc.Locked? && cpu.pc.id in k.locks ==> MayGoOn(k, cpu, a))
  }

  // What the line makes of its process's task.
  function NextTask(k: Kernel, cpu: Cpu, a: Action, call: Call, task: Task): Task {
    if cpu.pc == Run && Takes(k, a) then
      match call
      case AcquireSleep => Test(a.lock.id)
      case ReleaseSleep => Clear(a.lock.id)
      case HoldingSleep => Leave(a.lock.id)
    else if AtTask(k, cpu, task) && task.Rouse? then Leave(task.id)
    else if AtTask(k, cpu, task) && task.Leave? then Idle
    else task
  }

  function NewTasks(k: Kernel, cpu: Cpu, a: Action, call: Call): seq<Task> {
    if cpu.proc.None? || cpu.proc.value >= |k.task| then k.task
    else k.task[cpu.proc.value := NextTask(k, cpu, a, call, k.task[cpu.proc.value])]
  }

  function Acquired(k: Kernel, p: nat, id: nat): Kernel
    requires p < |k.task| && p < |k.held|
  {
    k.(locked := k.locked + {id}, pid := k.pid[id := p],
       task := k.task[p := Leave(id)], held := k.held[p := k.held[p] + {id}])
  }

  function Released(k: Kernel, p: nat, id: nat): Kernel
    requires p < |k.task| && p < |k.held|
  {
    k.(locked := k.locked - {id}, pid := k.pid - {id},
       task := k.task[p := Rouse(id)], held := k.held[p := k.held[p] - {id}])
  }

  ghost predicate KernelStep(k: Kernel, c: nat, act: Act, k': Kernel) {
    && Shaped(k) && c < NCPU
    && var cpu := k.s.cpus[c];
    match act
    case Line(a, on, call) =>
      Follows(k, cpu, a, call) && Step(k.s, c, a, on, k'.s) && k' == k.(s := k'.s, task := NewTasks(k, cpu, a, call))
    case FindFree(id) => AtTask(k, cpu, Test(id)) && id !in k.locked &&
      k' == k.(task := k.task[cpu.proc.value := Set(id)])
    case SetLocked(id) => AtTask(k, cpu, Set(id)) && k' == Acquired(k, cpu.proc.value, id)
    case ClearLocked(id) => AtTask(k, cpu, Clear(id)) && k' == Released(k, cpu.proc.value, id)
  }

  ghost predicate Start(k: Kernel) {
    && Shaped(k) && Boot(k.s) && k.locked == {} && k.pid == map[]
    && (forall p :: 0 <= p < NPROC ==> k.task[p] == Idle && k.held[p] == {})
  }

  // ----- the invariant -----

  // lk->locked and lk->pid tell who holds a lock.
  ghost predicate HolderFits(k: Kernel) {
    && (forall p :: 0 <= p < |k.held| ==> HoldsOwn(k, p))
    && (forall id :: id in k.locked ==> id in k.pid && k.pid[id] < |k.held| && id in k.held[k.pid[id]])
  }

  ghost predicate HoldsOwn(k: Kernel, p: nat)
    requires p < |k.held|
  {
    forall id :: id in k.held[p] ==> id in k.locked && id in k.pid && k.pid[id] == p
  }

  // What a process about to clear or set lk->locked knows.
  ghost predicate TaskFits(k: Kernel, p: nat)
    requires p < |k.task| && p < |k.held|
  {
    && (k.task[p].Clear? ==> k.task[p].id in k.held[p])
    && (k.task[p].Set? ==> k.task[p].id !in k.locked && Arrived(k, p))
  }

  // Some CPU has the process at the line its task says.
  ghost predicate Arrived(k: Kernel, p: nat)
    requires p < |k.task|
  {
    exists c :: 0 <= c < |k.s.cpus| && k.s.cpus[c].proc == Some(p) && AtTask(k, k.s.cpus[c], k.task[p])
  }

  // A process goes to sleep on a lock only while it is locked.
  ghost predicate SleepFits(k: Kernel, cpu: Cpu) {
    DozesOn(cpu.pc).Some? && DozesOn(cpu.pc).value in k.locks ==> DozesOn(cpu.pc).value in k.locked
  }

  // On its way to sleep, with the spinlock still held.
  function DozesOn(pc: Pc): Option<nat> {
    if pc.Sleep? && (pc.z == SleepEnter || pc.z == SleepHeld) && pc.lk.Other? then Some(pc.lk.id) else None
  }

  // The holder of the spinlock is about to wake `q`.
  ghost predicate RousePending(k: Kernel, id: nat, q: nat) {
    && Other(id) in k.s.owner && k.s.owner[Other(id)] < |k.s.cpus|
    && var cpu := k.s.cpus[k.s.owner[Other(id)]];
    AtTask(k, cpu, Rouse(id)) || (cpu.pc.Wake? && cpu.pc.chan == ChanOf(id) && !Passed(cpu.pc, q))
  }

  // Whoever sleeps on a lock that is free is about to be woken.
  ghost predicate SleeperFits(k: Kernel, id: nat, q: nat)
    requires q < |k.s.procs|
  {
    id in k.locks ==> id in k.locked || Awake(k.s, q, ChanOf(id)) || RousePending(k, id, q)
  }

  ghost predicate KernelInv(k: Kernel) {
    && Shaped(k) && Inv(k.s) && HolderFits(k)
    && (forall p :: 0 <= p < NPROC ==> TaskFits(k, p))
    && (forall c :: 0 <= c < NCPU ==> SleepFits(k, k.s.cpus[c]))
    && (forall id, q :: 0 <= q < NPROC ==> SleeperFits(k, id, q))
  }

  // ----- exclusion by the spinlock -----

  // While a CPU is at a line of one of the functions, no other holds the spinlock.
  lemma AloneAtLock(k: Kernel, c: nat, d: nat, id: nat)
    requires KernelInv(k) && c < NCPU && d < NCPU && c != d && k.s.cpus[c].pc == Locked(id, Run)
    ensures !Holds(k.s.cpus[d], Other(id)) && DozesOn(k.s.cpus[d].pc) != Some(id) && Other(id) in k.s.owner
    ensures k.s.owner[Other(id)] == c
  {
    assert Holds(k.s.cpus[c], Other(id)) <==> Holding(k.s, c, Other(id));
    LockAlone(k.s, c, d, Other(id));
  }

  // A process about to set lk->locked is on one CPU, at that line.
  lemma OnlyThere(k: Kernel, c: nat, p: nat)
    requires KernelInv(k) && c < NCPU && p < NPROC && k.s.cpus[c].proc == Some(p) && k.task[p].Set?
    ensures AtTask(k, k.s.cpus[c], k.task[p])
  {
    assert TaskFits(k, p);
    var d :| 0 <= d < |k.s.cpus| && k.s.cpus[d].proc == Some(p) && AtTask(k, k.s.cpus[d], k.task[p]);
    if d != c {
      assert Placed(k.s.cpus[c]) && Placed(k.s.cpus[d]);
      SubjectsApart(k.s, c, d);
    }
  }

  lemma OthersTask(k: Kernel, c: nat, d: nat)
    requires KernelInv(k) && c < NCPU && d < NCPU && c != d && k.s.cpus[c].proc.Some?
    ensures k.s.cpus[d].proc != k.s.cpus[c].proc
  {
    assert Placed(k.s.cpus[c]) && Placed(k.s.cpus[d]);
    SubjectsApart(k.s, c, d);
  }

  lemma SameHolders(k: Kernel, k': Kernel)
    requires HolderFits(k) && k'.locked == k.locked && k'.pid == k.pid && k'.held == k.held
    ensures HolderFits(k')
  {
    forall p | 0 <= p < |k'.held| ensures HoldsOwn(k', p) { assert HoldsOwn(k, p); }
  }

  // ----- the accesses to lk->locked -----

  // The process on CPU `c` moves on from one task to another while nothing else but the flag of its lock changes.
  ghost predicate Access(k: Kernel, c: nat, id: nat, k': Kernel) {
    && KernelInv(k) && Shaped(k') && c < NCPU && k'.s == k.s && k'.locks == k.locks && id in k.locks
    && k.s.cpus[c].pc == Locked(id, Run) && k.s.cpus[c].proc.Some? && k.s.cpus[c].proc.value < NPROC
    && var p := k.s.cpus[c].proc.value;
    && !k'.task[p].Idle? && k'.task == k.task[p := k'.task[p]] && k'.task[p].id == id
    && (forall x :: x != id ==> (x in k'.locked <==> x in k.locked))
  }

  lemma AccessKeepsSleep(k: Kernel, c: nat, id: nat, k': Kernel, d: nat)
    requires Access(k, c, id, k') && d < NCPU
    ensures SleepFits(k', k'.s.cpus[d])
  {
    assert SleepFits(k, k.s.cpus[d]);
    if d != c { AloneAtLock(k, c, d, id); }
  }

  lemma AccessKeepsArrived(k: Kernel, c: nat, id: nat, k': Kernel, r: nat)
    requires Access(k, c, id, k') && r < NPROC && k.s.cpus[c].proc != Some(r) && k.task[r].Set?
    ensures k.task[r].id != id && k.task[r].id !in k.locked && Arrived(k', r)
  {
    assert TaskFits(k, r);
    var d :| 0 <= d < |k.s.cpus| && k.s.cpus[d].proc == Some(r) && AtTask(k, k.s.cpus[d], k.task[r]);
    AloneAtLock(k, c, d, id);
    assert Holds(k.s.cpus[d], Other(k.task[r].id));
    assert AtTask(k', k'.s.cpus[d], k'.task[r]);
  }

  lemma AccessKeepsPending(k: Kernel, c: nat, id: nat, k': Kernel, x: nat, q: nat)
    requires Access(k, c, id, k') && q < NPROC && x != id && RousePending(k, x, q)
    ensures RousePending(k', x, q)
  {
    var e := k.s.owner[Other(x)];
    assert Holding(k.s, e, Other(x)) && Holds(k.s.cpus[e], Other(x));
    if e != c { OthersTask(k, c, e); }
  }

  // Nobody is being woken by a CPU that is not at it.
  lemma NotPending(k: Kernel, c: nat, id: nat, q: nat)
    requires KernelInv(k) && c < NCPU && k.s.cpus[c].pc == Locked(id, Run) && RousePending(k, id, q)
    ensures AtTask(k, k.s.cpus[c], Rouse(id))
  {
    assert Holds(k.s.cpus[c], Other(id)) <==> Holding(k.s, c, Other(id));
  }

  lemma AccessKeepsSleeper(k: Kernel, c: nat, id: nat, k': Kernel, x: nat, q: nat)
    requires Access(k, c, id, k') && q < NPROC
    requires id in k.locked || id in k'.locked || !AtTask(k, k.s.cpus[c], Rouse(id))
    requires id in k.locked && id !in k'.locked ==> AtTask(k', k.s.cpus[c], Rouse(id))
    ensures SleeperFits(k', x, q)
  {
    assert SleeperFits(k, x, q);
    assert Holds(k.s.cpus[c], Other(id)) <==> Holding(k.s, c, Other(id));
    if x in k.locks && x !in k'.locked && !Awake(k.s, q, ChanOf(x)) {
      if x != id {
        AccessKeepsPending(k, c, id, k', x, q);
      } else if id !in k.locked {
        NotPending(k, c, id, q);
      }
    }
  }

  lemma AccessKeepsInv(k: Kernel, c: nat, id: nat, k': Kernel)
    requires Access(k, c, id, k') && HolderFits(k') && TaskFits(k', k.s.cpus[c].proc.value)
    requires forall r :: 0 <= r < NPROC && k.s.cpus[c].proc != Some(r) ==> k'.held[r] == k.held[r]
    requires id in k.locked || id in k'.locked || !AtTask(k, k.s.cpus[c], Rouse(id))
    requires id in k.locked && id !in k'.locked ==> AtTask(k', k.s.cpus[c], Rouse(id))
    ensures KernelInv(k')
  {
    forall r | 0 <= r < NPROC ensures TaskFits(k', r) {
      assert TaskFits(k, r);
      if k.s.cpus[c].proc != Some(r) && k.task[r].Set? { AccessKeepsArrived(k, c, id, k', r); }
    }
    forall d | 0 <= d < NCPU ensures SleepFits(k', k'.s.cpus[d]) { AccessKeepsSleep(k, c, id, k', d); }
    forall x, q | 0 <= q < NPROC ensures SleeperFits(k', x, q) { AccessKeepsSleeper(k, c, id, k', x, q); }
  }

  lemma FindFreeKeepsInv(k: Kernel, c: nat, id: nat, k': Kernel)
    requires KernelInv(k) && KernelStep(k, c, FindFree(id), k')
    ensures KernelInv(k')
  {
    var p := k.s.cpus[c].proc.value;
    assert TaskFits(k', p) by { assert AtTask(k', k'.s.cpus[c], k'.task[p]); }
    SameHolders(k, k');
    AccessKeepsInv(k, c, id, k');
  }

  lemma SetLockedKeepsInv(k: Kernel, c: nat, id: nat, k': Kernel)
    requires KernelInv(k) && KernelStep(k, c, SetLocked(id), k')
    ensures KernelInv(k')
  {
    assert TaskFits(k, k.s.cpus[c].proc.value);
    AcquiredFits(k, k.s.cpus[c].proc.value, id);
    AccessKeepsInv(k, c, id, k');
  }

  lemma AcquiredFits(k: Kernel, p: nat, id: nat)
    requires HolderFits(k) && |k.task| == |k.held| && p < |k.held| && id !in k.locked
    ensures HolderFits(Acquired(k, p, id))
  {
    var k' := Acquired(k, p, id);
    forall q | 0 <= q < |k'.held| ensures HoldsOwn(k', q) { assert HoldsOwn(k, q); }
  }

  lemma ReleasedFits(k: Kernel, p: nat, id: nat)
    requires HolderFits(k) && |k.task| == |k.held| && p < |k.held| && id in k.held[p]
    ensures HolderFits(Released(k, p, id))
  {
    var k' := Released(k, p, id);
    assert HoldsOwn(k, p);
    forall q | 0 <= q < |k'.held| ensures HoldsOwn(k', q) { assert HoldsOwn(k, q); }
    forall x | x in k'.locked ensures x in k'.pid && k'.pid[x] < |k'.held| && x in k'.held[k'.pid[x]] { }
  }

  lemma ClearLockedKeepsInv(k: Kernel, c: nat, id: nat, k': Kernel)
    requires KernelInv(k) && KernelStep(k, c, ClearLocked(id), k')
    ensures KernelInv(k')
  {
    assert TaskFits(k, k.s.cpus[c].proc.value);
    ReleasedFits(k, k.s.cpus[c].proc.value, id);
    AccessKeepsInv(k, c, id, k');
  }

  // ----- the lines of the machine -----

  lemma LineDozes(s: State, cpu: Cpu, a: Action, k: Context, on: bool, id: nat)
    requires |s.procs| == NPROC && Placed(cpu) && Allowed(s, cpu, a) && DozesOn(NewCpu(cpu, a, k, on).pc) == Some(id)
    ensures DozesOn(cpu.pc) == Some(id) || (cpu.pc.Locked? && cpu.pc.id == id && a.Move?)
  {
    match a
    case Move(_) => MoveDozes(s, cpu, a, id);
    case Acquire(_, _) => AcquireDozes(s, cpu, a, id);
    case _ => NoDoze(s, cpu, a, k, on);
  }

  lemma MoveDozes(s: State, cpu: Cpu, a: Action, id: nat)
    requires |s.procs| == NPROC && Placed(cpu) && Allowed(s, cpu, a) && a.Move? && DozesOn(a.pc) == Some(id)
    ensures cpu.pc.Locked? && cpu.pc.id == id
  {
  }

  lemma AcquireDozes(s: State, cpu: Cpu, a: Action, id: nat)
    requires |s.procs| == NPROC && Placed(cpu) && Allowed(s, cpu, a) && a.Acquire? && DozesOn(a.pc) == Some(id)
    ensures DozesOn(cpu.pc) == Some(id)
  {
  }

  lemma NoDoze(s: State, cpu: Cpu, a: Action, k: Context, on: bool)
    requires |s.procs| == NPROC && Placed(cpu) && Allowed(s, cpu, a) && !a.Move? && !a.Acquire?
    ensures DozesOn(NewCpu(cpu, a, k, on).pc) == None
  {
  }

  // A wakeup returns when it has looked at every process.
  lemma WakeReturns(s: State, cpu: Cpu, a: Action, k: Context, on: bool, q: nat)
    requires |s.procs| == NPROC && Placed(cpu) && Allowed(s, cpu, a) && cpu.pc.Wake? && q < NPROC && !Passed(cpu.pc, q)
    ensures var pc' := NewCpu(cpu, a, k, on).pc; pc'.Wake? && pc'.chan == cpu.pc.chan
    ensures !(a.Release? && a.lock.Other?)
  {
  }

  // What a line starts from, and where it leads.
  ghost predicate Goes(k: Kernel, c: nat, a: Action, on: bool, call: Call, k': Kernel) {
    KernelInv(k) && KernelStep(k, c, Line(a, on, call), k') && Inv(k'.s)
  }

  // The task a line gives its own process.
  lemma OwnTask(k: Kernel, cpu: Cpu, a: Action, call: Call, p: nat)
    requires |k.task| == |k.held| && Follows(k, cpu, a, call) && cpu.proc == Some(p) && p < |k.task|
    requires k.task[p].Clear? ==> k.task[p].id in k.held[p]
    requires k.task[p].Set? ==> AtTask(k, cpu, k.task[p])
    ensures var task := NextTask(k, cpu, a, call, k.task[p]); !task.Set? && (task.Clear? ==> task.id in k.held[p])
  {
  }

  // A process that is elsewhere stays where it is.
  lemma StaysArrived(k: Kernel, c: nat, k': Kernel, p: nat)
    requires c < NCPU && |k.s.cpus| == |k'.s.cpus| == NCPU && p < |k.task| && p < |k'.task| && k'.task[p] == k.task[p]
    requires k'.locks == k.locks && Arrived(k, p) && k.s.cpus[c].proc != Some(p)
    requires forall d :: 0 <= d < NCPU && d != c ==> k'.s.cpus[d] == k.s.cpus[d]
    ensures Arrived(k', p)
  {
    var d :| 0 <= d < |k.s.cpus| && k.s.cpus[d].proc == Some(p) && AtTask(k, k.s.cpus[d], k.task[p]);
    assert AtTask(k', k'.s.cpus[d], k'.task[p]);
  }

  lemma LineKeepsTask(k: Kernel, c: nat, a: Action, on: bool, call: Call, k': Kernel, p: nat)
    requires KernelInv(k) && KernelStep(k, c, Line(a, on, call), k') && p < NPROC
    ensures TaskFits(k', p)
  {
    assert TaskFits(k, p);
    if k.s.cpus[c].proc == Some(p) {
      if k.task[p].Set? { OnlyThere(k, c, p); }
      OwnTask(k, k.s.cpus[c], a, call, p);
    } else if k.task[p].Set? {
      StaysArrived(k, c, k', p);
    }
  }

  lemma LineKeepsSleep(k: Kernel, c: nat, a: Action, on: bool, call: Call, k': Kernel, d: nat)
    requires Goes(k, c, a, on, call, k') && d < NCPU
    ensures SleepFits(k', k'.s.cpus[d])
  {
    assert SleepFits(k, k.s.cpus[d]);
    if d == c && DozesOn(k'.s.cpus[c].pc).Some? {
      assert Placed(k.s.cpus[c]);
      LineDozes(k.s, k.s.cpus[c], a, SavedContext(k.s, k.s.cpus[c]), on, DozesOn(k'.s.cpus[c].pc).value);
    }
  }

  // Nobody falls asleep on a lock that is free.
  lemma LineKeepsAwake(k: Kernel, c: nat, a: Action, on: bool, call: Call, k': Kernel, id: nat, q: nat)
    requires Goes(k, c, a, on, call, k') && q < NPROC && id in k.locks && id !in k.locked && Awake(k.s, q, ChanOf(id))
    ensures Awake(k'.s, q, ChanOf(id))
  {
    if !Awake(k'.s, q, ChanOf(id)) {
      StepDeed(k.s, c, a);
      assert ChanFits(k.s, k.s.cpus[c]) && SleepFits(k, k.s.cpus[c]);
      DozeStarts(k.s, c, a, on, q, ChanOf(id));
    }
  }

  lemma LineKeepsPending(k: Kernel, c: nat, a: Action, on: bool, call: Call, k': Kernel, id: nat, q: nat)
    requires Goes(k, c, a, on, call, k') && q < NPROC && id in k.locks && RousePending(k, id, q)
    ensures Awake(k'.s, q, ChanOf(id)) || RousePending(k', id, q)
  {
    var e := k.s.owner[Other(id)];
    if e == c {
      OwnRouse(k, c, a, on, call, k', id, q);
    } else {
      OwnerStays(k.s, c, a, Other(id));
      if k.s.cpus[c].proc.Some? { OthersTask(k, c, e); }
    }
  }

  lemma OwnRouse(k: Kernel, c: nat, a: Action, on: bool, call: Call, k': Kernel, id: nat, q: nat)
    requires Goes(k, c, a, on, call, k') && q < NPROC && id in k.locks
    requires RousePending(k, id, q) && k.s.owner[Other(id)] == c
    ensures Awake(k'.s, q, ChanOf(id)) || RousePending(k', id, q)
  {
    var cpu := k.s.cpus[c];
    if cpu.pc.Wake? {
      assert Placed(cpu) && WakeFits(k'.s, k'.s.cpus[c]);
      WakeReturns(k.s, cpu, a, SavedContext(k.s, cpu), on, q);
      StillOwns(k.s, c, a, Other(id));
    } else {
      RouseStarts(k, c, a, on, call, k', id, q);
    }
  }

  lemma StillOwns(s: State, c: nat, a: Action, l: Lock)
    requires l in s.owner && s.owner[l] == c && !(a.Release? && a.lock == l) && !(a.Acquire? && a.lock == l)
    ensures l in NewOwner(s.owner, c, a) && NewOwner(s.owner, c, a)[l] == c
  {
  }

  lemma RouseStarts(k: Kernel, c: nat, a: Action, on: bool, call: Call, k': Kernel, id: nat, q: nat)
    requires KernelStep(k, c, Line(a, on, call), k') && q < NPROC && AtTask(k, k.s.cpus[c], Rouse(id))
    requires Other(id) in k.s.owner && k.s.owner[Other(id)] == c
    ensures RousePending(k', id, q)
  {
  }

  lemma LineKeepsSleeper(k: Kernel, c: nat, a: Action, on: bool, call: Call, k': Kernel, id: nat, q: nat)
    requires Goes(k, c, a, on, call, k') && q < NPROC
    ensures SleeperFits(k', id, q)
  {
    assert SleeperFits(k, id, q);
    if id in k.locks && id !in k.locked {
      if RousePending(k, id, q) {
        LineKeepsPending(k, c, a, on, call, k', id, q);
      } else {
        LineKeepsAwake(k, c, a, on, call, k', id, q);
      }
    }
  }

  lemma LineKeepsInv(k: Kernel, c: nat, a: Action, on: bool, call: Call, k': Kernel)
    requires KernelInv(k) && KernelStep(k, c, Line(a, on, call), k')
    ensures KernelInv(k')
  {
    StepKeepsInv(k.s, c, a, on, k'.s);
    SameHolders(k, k');
    forall p | 0 <= p < NPROC ensures TaskFits(k', p) { LineKeepsTask(k, c, a, on, call, k', p); }
    forall d | 0 <= d < NCPU ensures SleepFits(k', k'.s.cpus[d]) { LineKeepsSleep(k, c, a, on, call, k', d); }
    LineKeepsSleepers(k, c, a, on, call, k');
  }

  lemma LineKeepsSleepers(k: Kernel, c: nat, a: Action, on: bool, call: Call, k': Kernel)
    requires Goes(k, c, a, on, call, k')
    ensures forall id, q :: 0 <= q < NPROC ==> SleeperFits(k', id, q)
  {
    forall id, q | 0 <= q < NPROC ensures SleeperFits(k', id, q) { LineKeepsSleeper(k, c, a, on, call, k', id, q); }
  }

  /** Every line and every access keeps the invariant. */
  lemma KernelStepKeepsInv(k: Kernel, c: nat, act: Act, k': Kernel)
    requires KernelInv(k) && KernelStep(k, c, act, k')
    ensures KernelInv(k')
  {
    match act
    case Line(a, on, call) => LineKeepsInv(k, c, a, on, call, k');
    case FindFree(id) => FindFreeKeepsInv(k, c, id, k');
    case SetLocked(id) => SetLockedKeepsInv(k, c, id, k');
    case ClearLocked(id) => ClearLockedKeepsInv(k, c, id, k');
  }

  // ----- runs -----

  // CPU `c` acts.
  datatype Move = Move(c: nat, act: Act)

  ghost predicate KernelRun(ks: seq<Kernel>, moves: seq<Move>) {
    && |ks| == |moves| + 1 && Start(ks[0])
    && forall i :: 0 <= i < |moves| ==> MoveAt(ks, moves, i)
  }

  ghost predicate MoveAt(ks: seq<Kernel>, moves: seq<Move>, i: nat)
    requires i < |moves| && |ks| == |moves| + 1
  {
    KernelStep(ks[i], moves[i].c, moves[i].act, ks[i + 1])
  }

  lemma StartInv(k: Kernel)
    requires Start(k)
    ensures KernelInv(k)
  {
    BootEstablishes(k.s);
    forall c | 0 <= c < NCPU ensures SleepFits(k, k.s.cpus[c]) { }
    forall id, q | 0 <= q < NPROC ensures SleeperFits(k, id, q) { }
  }

  lemma {:induction false} KernelRunKeepsInv(ks: seq<Kernel>, moves: seq<Move>, n: nat)
    requires KernelRun(ks, moves) && n < |ks|
    ensures KernelInv(ks[n])
  {
    if n == 0 {
      StartInv(ks[0]);
    } else {
      KernelRunKeepsInv(ks, moves, n - 1);
      assert MoveAt(ks, moves, n - 1);
      KernelStepKeepsInv(ks[n - 1], moves[n - 1].c, moves[n - 1].act, ks[n]);
    }
  }

  /**
   Mutual exclusion: in every interleaving no two processes are between acquiresleep
   and releasesleep of the same lock, and holdingsleep's test is true of exactly the
   process that is.
   */
  lemma SleepLockExclusion(ks: seq<Kernel>, moves: seq<Move>, n: nat, p: nat, id: nat)
    requires KernelRun(ks, moves) && n < |ks| && p < NPROC
    ensures |ks[n].held| == NPROC
    ensures id in ks[n].held[p] ==> forall q :: 0 <= q < NPROC && id in ks[n].held[q] ==> q == p
    ensures id in ks[n].held[p] <==> id in ks[n].locked && id in ks[n].pid && ks[n].pid[id] == p
  {
    KernelRunKeepsInv(ks, moves, n);
    assert HoldsOwn(ks[n], p);
    forall q | 0 <= q < NPROC && id in ks[n].held[p] && id in ks[n].held[q] ensures q == p {
      OneHolder(ks[n], p, q, id);
    }
  }

  lemma OneHolder(k: Kernel, p: nat, q: nat, id: nat)
    requires HolderFits(k) && p < |k.held| && q < |k.held| && id in k.held[p] && id in k.held[q]
    ensures p == q
  {
    assert HoldsOwn(k, p) && HoldsOwn(k, q);
  }

  /** No lost release: while nobody holds a sleep lock or its spinlock, no process is asleep waiting for it. */
  lemma NoLostRelease(ks: seq<Kernel>, moves: seq<Move>, n: nat, id: nat, q: nat)
    requires KernelRun(ks, moves) && n < |ks| && q < NPROC && id in ks[n].locks
    requires (forall p :: 0 <= p < |ks[n].held| ==> id !in ks[n].held[p]) && Other(id) !in ks[n].s.owner
    ensures |ks[n].s.procs| == NPROC && Awake(ks[n].s, q, ChanOf(id))
  {
    KernelRunKeepsInv(ks, moves, n);
    assert SleeperFits(ks[n], id, q);
  }
}
