/**
 No exit is lost: a process asleep in wait() with a zombie child is about to be
 woken by whoever holds wait_lock.
 */
module ProcWait {
  import opened Common
  import opened ProcMachine
  import opened ProcInvariant
  import opened ProcParents
  import opened ProcSleep

  predicate AsleepInWait(s: State, q: nat)
    requires q < |s.procs|
  {
    Asleep(s, q, WaitChan(q))
  }

  // reparent's wakeup(initproc) has yet to look at `q`.
  predicate Rousing(pc: Pc, q: nat) {
    pc.Wake? && pc.ret.ToReparent? && pc.chan == WaitChan(q) && !Passed(pc, q)
  }

  // exit's wakeup(p->parent) is done.
  predicate Called(pc: Pc) {
    pc.Exit? && (pc.e == ExitLock || pc.e == ExitMark)
  }

  // Whom an exiting process wakes, and has woken.
  ghost predicate WakerFits(s: State, cpu: Cpu) {
    && (cpu.pc.Wake? && cpu.pc.ret.ToReparent? ==> cpu.pc.chan == WaitChan(s.init))
    && (Exits(cpu.pc) && cpu.proc.Some? && cpu.proc.value < |s.procs| && s.procs[cpu.proc.value].parent.Some? ==>
          WakesParent(s, cpu.pc, s.procs[cpu.proc.value].parent.value))
  }

  ghost predicate WakesParent(s: State, pc: Pc, q: nat) {
    && (pc.Wake? && pc.ret.ToExit? ==> pc.chan == WaitChan(q))
    && (Called(pc) && q < |s.procs| ==> Awake(s, q, WaitChan(q)))
  }

  ghost predicate WakePending(s: State, q: nat) {
    WaitLock in s.owner && s.owner[WaitLock] < |s.cpus| && Rousing(s.cpus[s.owner[WaitLock]].pc, q)
  }

  ghost predicate Safe(s: State, q: nat, z: nat)
    requires q < |s.procs| && z < |s.procs|
  {
    s.procs[z].state == ZOMBIE && s.procs[z].parent == Some(q) ==> WakePending(s, q) || Awake(s, q, WaitChan(q))
  }

  ghost predicate WaitInv(s: State)
    requires Shape(s)
  {
    && (forall c :: 0 <= c < NCPU ==> WakerFits(s, s.cpus[c]))
    && (forall q, z :: 0 <= q < NPROC && 0 <= z < NPROC ==> Safe(s, q, z))
  }

  ghost predicate Inv(s: State) {
    Core(s) && Family(s) && SleepInv(s) && WaitInv(s)
  }

  // What a step of CPU `c` starts from.
  ghost predicate At(s: State, c: nat, a: Action) {
    Inv(s) && MayStep(s, c, a) && Deed(s, c, a)
  }

  // ----- lines -----

  lemma LineRouses(s: State, cpu: Cpu, a: Action, k: Context, on: bool, q: nat)
    requires |s.procs| == NPROC && Placed(cpu) && Allowed(s, cpu, a)
    requires Rousing(cpu.pc, q) && cpu.proc != Some(q) && q < NPROC
    ensures Rousing(NewCpu(cpu, a, k, on).pc, q) || cpu.pc == Wake(WakeHeld, WaitChan(q), q, cpu.pc.ret)
    ensures !(a.Release? && a.lock == WaitLock)
  {
  }

  // How exit gets past its wakeup: with every entry looked at.
  lemma LineCalled(s: State, cpu: Cpu, a: Action, k: Context, on: bool)
    requires |s.procs| == NPROC && Placed(cpu) && Allowed(s, cpu, a) && Called(NewCpu(cpu, a, k, on).pc)
    ensures NewCpu(cpu, a, k, on).proc == cpu.proc && !cpu.pc.Sleep?
    ensures Called(cpu.pc) || (cpu.pc.Wake? && cpu.pc.ret.ToExit? && cpu.pc.i >= NPROC && cpu.pc.w == WakeNext)
  {
    match a
    case Move(_) => MoveCalled(s, cpu, a);
    case Acquire(_, _) => AcquireCalled(s, cpu, a);
    case _ => NotCalled(s, cpu, a, k, on);
  }

  lemma MoveCalled(s: State, cpu: Cpu, a: Action)
    requires |s.procs| == NPROC && Placed(cpu) && Allowed(s, cpu, a) && a.Move? && Called(a.pc)
    ensures cpu.pc.Wake? && cpu.pc.ret.ToExit? && cpu.pc.i >= NPROC && cpu.pc.w == WakeNext
  {
  }

  lemma AcquireCalled(s: State, cpu: Cpu, a: Action)
    requires |s.procs| == NPROC && Placed(cpu) && Allowed(s, cpu, a) && a.Acquire? && Called(a.pc)
    ensures Called(cpu.pc)
  {
  }

  lemma NotCalled(s: State, cpu: Cpu, a: Action, k: Context, on: bool)
    requires |s.procs| == NPROC && Placed(cpu) && Allowed(s, cpu, a) && !a.Move? && !a.Acquire?
    ensures !Called(NewCpu(cpu, a, k, on).pc)
  {
  }

  // Whom a line's CPU is waking afterwards: whom it was waking, init, or the parent of the process that exits.
  predicate WakesWhom(s: State, cpu: Cpu, pc': Pc)
    requires pc'.Wake?
  {
    || (cpu.pc.Wake? && pc'.chan == cpu.pc.chan && pc'.ret == cpu.pc.ret)
    || pc'.ret.ToLocked?
    || (pc'.ret.ToReparent? && pc'.chan == WaitChan(s.init) && cpu.pc.Exit?)
    || (pc'.ret.ToExit? && cpu.pc.Exit? && cpu.proc.Some? && cpu.proc.value < |s.procs|
        && s.procs[cpu.proc.value].parent.Some? && pc'.chan == WaitChan(s.procs[cpu.proc.value].parent.value))
  }

  lemma LineCalls(s: State, cpu: Cpu, a: Action, k: Context, on: bool)
    requires |s.procs| == NPROC && Placed(cpu) && Allowed(s, cpu, a) && NewCpu(cpu, a, k, on).pc.Wake?
    ensures NewCpu(cpu, a, k, on).proc == cpu.proc && WakesWhom(s, cpu, NewCpu(cpu, a, k, on).pc)
  {
    if cpu.pc.Wake? {
      WakeContinues(s, cpu, a, k, on);
    } else {
      match a
      case Move(_) => MoveCalls(s, cpu, a);
      case Put(_, _, _) => PutCalls(s, cpu, a);
      case _ => NoWake(s, cpu, a, k, on);
    }
  }

  lemma WakeContinues(s: State, cpu: Cpu, a: Action, k: Context, on: bool)
    requires |s.procs| == NPROC && Placed(cpu) && Allowed(s, cpu, a) && cpu.pc.Wake? && NewCpu(cpu, a, k, on).pc.Wake?
    ensures var cpu' := NewCpu(cpu, a, k, on); cpu'.proc == cpu.proc && WakesWhom(s, cpu, cpu'.pc)
  {
  }

  lemma MoveCalls(s: State, cpu: Cpu, a: Action)
    requires |s.procs| == NPROC && Placed(cpu) && Allowed(s, cpu, a) && a.Move? && !cpu.pc.Wake? && a.pc.Wake?
    ensures WakesWhom(s, cpu, a.pc)
  {
  }

  lemma PutCalls(s: State, cpu: Cpu, a: Action)
    requires |s.procs| == NPROC && Placed(cpu) && Allowed(s, cpu, a) && a.Put? && !cpu.pc.Wake? && a.pc.Wake?
    ensures WakesWhom(s, cpu, a.pc)
  {
  }

  // A reparented zombie's new parent is about to be woken.
  lemma LineReparents(s: State, cpu: Cpu, a: Action, x: nat)
    requires |s.procs| == NPROC && Placed(cpu) && Allowed(s, cpu, a) && cpu.pc == Exit(Reparent, x) && a.Put?
    ensures Rousing(a.pc, s.init)
  {
  }

  lemma ExitsUnderLock(cpu: Cpu)
    requires Exits(cpu.pc)
    ensures Holds(cpu, WaitLock) && !cpu.pc.Sleep?
  {
  }

  // ----- the invariant is kept -----

  // Nobody falls asleep in wait() while an exit is under way, but for the steps of the CPU it is on.
  lemma AwakeInExit(s: State, c: nat, a: Action, on: bool, d: nat, q: nat)
    requires At(s, c, a) && d < NCPU && Exits(s.cpus[d].pc) && q < NPROC && Awake(s, q, WaitChan(q))
    ensures Awake(Apply(s, c, a, on), q, WaitChan(q))
  {
    ExitsUnderLock(s.cpus[d]);
    if d != c { LockAlone(s, d, c, WaitLock); }
    assert ChanFits(s, s.cpus[c]);
    AwakeStays(s, c, a, on, q, WaitChan(q));
  }

  lemma OtherWaker(s: State, c: nat, a: Action, on: bool, d: nat)
    requires At(s, c, a) && d < NCPU && d != c
    ensures WakerFits(Apply(s, c, a, on), s.cpus[d])
  {
    assert WakerFits(s, s.cpus[d]);
    if Exits(s.cpus[d].pc) && s.cpus[d].proc.Some? && s.cpus[d].proc.value < NPROC {
      var p := s.cpus[d].proc.value;
      ExitsUnderLock(s.cpus[d]);
      LockAlone(s, d, c, WaitLock);
      UnlockedStep(s, c, a, on, p);
      if s.procs[p].parent.Some? && s.procs[p].parent.value < NPROC && Called(s.cpus[d].pc) {
        AwakeInExit(s, c, a, on, d, s.procs[p].parent.value);
      }
    }
  }

  // While one of its lines runs, an exiting process's parent does not change.
  lemma OwnParentStays(s: State, c: nat, a: Action, on: bool, p: nat)
    requires Core(s) && Family(s) && Deed(s, c, a) && p < NPROC && s.cpus[c].proc == Some(p) && Exits(s.cpus[c].pc)
    ensures Apply(s, c, a, on).procs[p].parent == s.procs[p].parent
  {
    ParentChange(s, c, a, on, p);
    assert FitsIn(s.cpus[c], s.procs) && InFamily(s, p) && Knows(s, s.cpus[c]);
  }

  lemma OwnCalled(s: State, c: nat, a: Action, on: bool, p: nat, q: nat)
    requires At(s, c, a) && p < NPROC && q < NPROC && s.cpus[c].proc == Some(p) && s.procs[p].parent == Some(q)
    requires Called(Apply(s, c, a, on).cpus[c].pc)
    ensures Awake(Apply(s, c, a, on), q, WaitChan(q))
  {
    var cpu := s.cpus[c];
    assert Placed(cpu) && WakerFits(s, cpu) && WakeFits(s, cpu);
    LineCalled(s, cpu, a, SavedContext(s, cpu), on);
    AwakeInExit(s, c, a, on, c, q);
  }

  lemma OwnWaker(s: State, c: nat, a: Action, on: bool)
    requires At(s, c, a)
    ensures WakerFits(Apply(s, c, a, on), Apply(s, c, a, on).cpus[c])
  {
    var s' := Apply(s, c, a, on);
    var cpu, cpu' := s.cpus[c], s'.cpus[c];
    assert WakerFits(s, cpu) && Placed(cpu);
    if cpu'.pc.Wake? { LineCalls(s, cpu, a, SavedContext(s, cpu), on); }
    if Called(cpu'.pc) { LineCalled(s, cpu, a, SavedContext(s, cpu), on); }
    if cpu'.proc.Some? && cpu'.proc == cpu.proc && Exits(cpu.pc) {
      var p := cpu.proc.value;
      OwnParentStays(s, c, a, on, p);
      if Called(cpu'.pc) && s.procs[p].parent.Some? && s.procs[p].parent.value < NPROC {
        OwnCalled(s, c, a, on, p, s.procs[p].parent.value);
      }
    }
  }

  // The holder of wait_lock on its way to `q` is still on its way, or has woken it.
  lemma PendingKept(s: State, c: nat, a: Action, on: bool, q: nat)
    requires At(s, c, a) && q < NPROC && WakePending(s, q)
    ensures WakePending(Apply(s, c, a, on), q) || Awake(Apply(s, c, a, on), q, WaitChan(q))
  {
    var e := s.owner[WaitLock];
    if e == c {
      OwnPending(s, c, a, on, q);
    } else {
      assert Core(s);
      OwnerStays(s, c, a, WaitLock);
    }
  }

  lemma OwnPending(s: State, c: nat, a: Action, on: bool, q: nat)
    requires At(s, c, a) && q < NPROC && WakePending(s, q) && s.owner[WaitLock] == c
    ensures WakePending(Apply(s, c, a, on), q) || Awake(Apply(s, c, a, on), q, WaitChan(q))
  {
    var cpu := s.cpus[c];
    assert Placed(cpu) && WakerFits(s, cpu) && Knows(s, cpu);
    LineRouses(s, cpu, a, SavedContext(s, cpu), on, q);
    if cpu.pc == Wake(WakeHeld, WaitChan(q), q, cpu.pc.ret) {
      JustWoken(s, c, a, on, q, WaitChan(q), cpu.pc.ret);
    }
  }

  lemma NewZombie(s: State, c: nat, a: Action, on: bool, z: nat, q: nat)
    requires At(s, c, a) && z < NPROC && q < NPROC && s.procs[z].state != ZOMBIE
    requires Apply(s, c, a, on).procs[z].state == ZOMBIE && Apply(s, c, a, on).procs[z].parent == Some(q)
    ensures Awake(Apply(s, c, a, on), q, WaitChan(q))
  {
    MakesZombie(s, c, a, on, z);
    OwnParentStays(s, c, a, on, z);
    assert WakerFits(s, s.cpus[c]);
    AwakeInExit(s, c, a, on, c, q);
  }

  lemma NewParent(s: State, c: nat, a: Action, on: bool, z: nat, q: nat)
    requires At(s, c, a) && z < NPROC && q < NPROC && s.procs[z].state == ZOMBIE && s.procs[z].parent != Some(q)
    requires Apply(s, c, a, on).procs[z].parent == Some(q)
    ensures WakePending(Apply(s, c, a, on), q)
  {
    ParentChange(s, c, a, on, z);
    assert FitsIn(s.cpus[c], s.procs) && Placed(s.cpus[c]);
    assert Holds(s.cpus[c], WaitLock) <==> Holding(s, c, WaitLock);
    LineReparents(s, s.cpus[c], a, z);
  }

  lemma OldZombie(s: State, c: nat, a: Action, on: bool, z: nat, q: nat)
    requires At(s, c, a) && z < NPROC && q < NPROC && s.procs[z].state == ZOMBIE && s.procs[z].parent == Some(q)
    ensures WakePending(Apply(s, c, a, on), q) || Awake(Apply(s, c, a, on), q, WaitChan(q))
  {
    assert Safe(s, q, z);
    if WakePending(s, q) {
      PendingKept(s, c, a, on, q);
    } else if !Awake(Apply(s, c, a, on), q, WaitChan(q)) {
      assert ChanFits(s, s.cpus[c]) && Knows(s, s.cpus[c]);
      DozeStarts(s, c, a, on, q, WaitChan(q));
    }
  }

  lemma SafeKept(s: State, c: nat, a: Action, on: bool, q: nat, z: nat)
    requires At(s, c, a) && q < NPROC && z < NPROC
    ensures |Apply(s, c, a, on).procs| == NPROC && Safe(Apply(s, c, a, on), q, z)
  {
    var s' := Apply(s, c, a, on);
    if s'.procs[z].state == ZOMBIE && s'.procs[z].parent == Some(q) {
      if s.procs[z].state != ZOMBIE {
        NewZombie(s, c, a, on, z, q);
      } else if s.procs[z].parent != Some(q) {
        NewParent(s, c, a, on, z, q);
      } else {
        OldZombie(s, c, a, on, z, q);
      }
    }
  }

  /** Every step of every CPU keeps the whole invariant. */
  lemma StepKeepsInv(s: State, c: nat, a: Action, on: bool, s': State)
    requires Inv(s) && Step(s, c, a, on, s')
    ensures Inv(s')
  {
    StepDeed(s, c, a);
    StepKeepsFamily(s, c, a, on);
    SleepKept(s, c, a, on);
    forall d | 0 <= d < NCPU ensures WakerFits(s', s'.cpus[d]) {
      if d == c {
        OwnWaker(s, c, a, on);
      } else {
        OtherWaker(s, c, a, on, d);
      }
    }
    forall q, z | 0 <= q < NPROC && 0 <= z < NPROC ensures Safe(s', q, z) { SafeKept(s, c, a, on, q, z); }
  }
}
