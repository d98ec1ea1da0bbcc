/**
 What the lines of the process machine can do: every CPU has one to execute, wait()
 collects a zombie it has in hand, and kill() leaves its victim awake.
 */
module ProcProgress {
  import opened Common
  import opened ProcMachine
  import opened ProcInvariant
  import opened ProcParents
  import opened ProcSleep
  import opened ProcWait
  import opened ProcRuns

  // ----- a line for every pc -----

  lemma SchedLine(s: State, cpu: Cpu) returns (a: Action)
    requires |s.procs| == NPROC && Placed(cpu) && cpu.pc.Sched?
    ensures Allowed(s, cpu, a)
  {
    var i := cpu.pc.i;
    match cpu.pc.s
    case SchedLoop =>
      a := if i < NPROC then Acquire(ProcLock(i), Sched(SchedHeld, i)) else Move(Sched(SchedLoop, 0));
    case SchedHeld =>
      a := if s.procs[i].state == RUNNABLE then SetState(i, RUNNING, Sched(SchedChosen, i))
           else Move(Sched(SchedDone, i));
    case SchedChosen => a := SetProc(Some(i), Sched(SchedSwitch, i));
    case SchedSwitch => a := SwitchIn;
    case SchedBack => a := SetProc(None, Sched(SchedDone, i));
    case SchedDone => a := Release(ProcLock(i), Sched(SchedLoop, i + 1));
  }

  lemma SwitchLine(s: State, cpu: Cpu, p: nat) returns (a: Action)
    requires |s.procs| == NPROC && Placed(cpu) && cpu.proc == Some(p)
    requires cpu.pc.AtSched? || cpu.pc.Resumed? || cpu.pc.YieldHeld? || cpu.pc.Run? || cpu.pc.Inside?
    ensures Allowed(s, cpu, a)
  {
    if cpu.pc.AtSched? {
      a := SwitchOut;
    } else if cpu.pc.YieldHeld? {
      a := SetState(p, RUNNABLE, AtSched(AfterYield(cpu.pc.at)));
    } else if cpu.pc.Inside? {
      a := Release(cpu.pc.lock, cpu.pc.at);
    } else if cpu.pc.Run? {
      a := Move(Kill(KillScan, 0));
    } else if cpu.pc.k.AfterSleep? {
      a := Put(p, NewChan(NoChan), Sleep(SleepTidy, cpu.pc.k.chan, cpu.pc.k.lk));
    } else {
      a := Release(ProcLock(p), if cpu.pc.k.AfterYield? then cpu.pc.k.at else Run);
    }
  }

  lemma SleepLine(s: State, cpu: Cpu, p: nat) returns (a: Action)
    requires |s.procs| == NPROC && Placed(cpu) && cpu.proc == Some(p) && cpu.pc.Sleep?
    ensures Allowed(s, cpu, a)
  {
    var chan, lk := cpu.pc.chan, cpu.pc.lk;
    match cpu.pc.z
    case SleepEnter => a := Acquire(ProcLock(p), Sleep(SleepHeld, chan, lk));
    case SleepHeld => a := Release(lk, Sleep(SleepReady, chan, lk));
    case SleepReady => a := Put(p, NewChan(chan), Sleep(SleepMark, chan, lk));
    case SleepMark => a := SetState(p, SLEEPING, AtSched(AfterSleep(chan, lk)));
    case SleepTidy => a := Release(ProcLock(p), Sleep(SleepReacquire, chan, lk));
    case SleepReacquire => a := Acquire(lk, if lk.Other? then Locked(lk.id, Run) else Wait(WaitScan, 0, false));
  }

  lemma WakeLine(s: State, cpu: Cpu) returns (a: Action)
    requires |s.procs| == NPROC && Placed(cpu) && cpu.pc.Wake?
    ensures Allowed(s, cpu, a)
  {
    var (chan, i, ret) := (cpu.pc.chan, cpu.pc.i, cpu.pc.ret);
    var done := Wake(WakeDone, chan, i, ret);
    match cpu.pc.w
    case WakeNext =>
      a := if i >= NPROC then Move(Return(ret))
           else if cpu.proc == Some(i) then Move(Wake(WakeNext, chan, i + 1, ret))
           else Acquire(ProcLock(i), Wake(WakeHeld, chan, i, ret));
    case WakeHeld =>
      a := if s.procs[i].state == SLEEPING && s.procs[i].chan == chan then SetState(i, RUNNABLE, done) else Move(done);
    case WakeDone => a := Release(ProcLock(i), Wake(WakeNext, chan, i + 1, ret));
  }

  lemma AllocLine(s: State, cpu: Cpu, p: nat) returns (a: Action)
    requires |s.procs| == NPROC && Placed(cpu) && cpu.proc == Some(p) && cpu.pc.Alloc?
    ensures Allowed(s, cpu, a)
  {
    var i := cpu.pc.i;
    match cpu.pc.l
    case AllocScan => a := if i < NPROC then Acquire(ProcLock(i), Alloc(AllocHeld, i)) else Move(Run);
    case AllocHeld =>
      a := if s.procs[i].state == UNUSED then SetState(i, USED, Alloc(AllocUsed, i)) else Move(Alloc(AllocSkip, i));
    case AllocSkip => a := Release(ProcLock(i), Alloc(AllocScan, i + 1));
    case AllocUsed => a := Put(i, NewContext, Fork(ForkCopied, i));
    case AllocFail => a := Release(ProcLock(i), Run);
  }

  lemma ForkLine(s: State, cpu: Cpu, p: nat) returns (a: Action)
    requires |s.procs| == NPROC && Placed(cpu) && cpu.proc == Some(p) && cpu.pc.Fork?
    ensures Allowed(s, cpu, a)
  {
    var i := cpu.pc.np;
    match cpu.pc.f
    case ForkCopied => a := Release(ProcLock(i), Fork(ForkWait, i));
    case ForkWait => a := Acquire(WaitLock, Fork(ForkLink, i));
    case ForkLink => a := Put(i, NewParent(p), Fork(ForkLinked, i));
    case ForkLinked => a := Release(WaitLock, Fork(ForkStart, i));
    case ForkStart => a := Acquire(ProcLock(i), Fork(ForkMark, i));
    case ForkMark => a := SetState(i, RUNNABLE, Fork(ForkDone, i));
    case ForkDone => a := Release(ProcLock(i), Run);
  }

  // exit wakes the parent, which there is.
  lemma ExitLine(s: State, cpu: Cpu, p: nat) returns (a: Action)
    requires |s.procs| == NPROC && Placed(cpu) && cpu.proc == Some(p) && cpu.pc.Exit? && s.procs[p].parent.Some?
    ensures Allowed(s, cpu, a)
  {
    var i := cpu.pc.i;
    match cpu.pc.e
    case Reparent =>
      a := if i >= NPROC then Move(Wake(WakeNext, WaitChan(s.procs[p].parent.value), 0, ToExit))
           else if s.procs[i].parent == Some(p) then
             Put(i, NewParent(s.init), Wake(WakeNext, WaitChan(s.init), 0, ToReparent(i)))
           else Move(Exit(Reparent, i + 1));
    case ExitLock => a := Acquire(ProcLock(p), Exit(ExitMark, i));
    case ExitMark => a := SetState(p, ZOMBIE, Exit(ExitRelease, i));
    case ExitRelease => a := Release(WaitLock, AtSched(AfterExit));
  }

  lemma WaitLine(s: State, cpu: Cpu, p: nat) returns (a: Action)
    requires |s.procs| == NPROC && Placed(cpu) && cpu.proc == Some(p) && cpu.pc.Wait?
    ensures Allowed(s, cpu, a)
  {
    var i, flag := cpu.pc.i, cpu.pc.flag;
    match cpu.pc.t
    case WaitScan =>
      a := if i >= NPROC then
             if flag then Acquire(ProcLock(p), Wait(WaitKilled, i, flag)) else Move(Wait(WaitOut, i, flag))
           else if s.procs[i].parent == Some(p) then Acquire(ProcLock(i), Wait(WaitCheck, i, flag))
           else Move(Wait(WaitScan, i + 1, flag));
    case WaitCheck =>
      a := if s.procs[i].state == ZOMBIE then Put(i, Cleared, Wait(WaitReap, i, flag))
           else Move(Wait(WaitSkip, i, flag));
    case WaitSkip => a := Release(ProcLock(i), Wait(WaitScan, i + 1, true));
    case WaitReap => a := Release(ProcLock(i), Wait(WaitOut, i, flag));
    case WaitOut => a := Release(WaitLock, Run);
    case WaitKilled => a := Move(Wait(WaitAsked, i, s.procs[p].killed));
    case WaitAsked =>
      a := Release(ProcLock(p), if flag then Wait(WaitOut, i, flag) else Sleep(SleepEnter, WaitChan(p), WaitLock));
  }

  lemma KillLine(s: State, cpu: Cpu, p: nat) returns (a: Action)
    requires |s.procs| == NPROC && Placed(cpu) && cpu.proc == Some(p) && cpu.pc.Kill?
    ensures Allowed(s, cpu, a)
  {
    var i := cpu.pc.i;
    match cpu.pc.x
    case KillScan => a := if i < NPROC then Acquire(ProcLock(i), Kill(KillHeld, i)) else Move(Run);
    case KillHeld => a := Put(i, NowKilled, Kill(KillWake, i));
    case KillWake =>
      a := if s.procs[i].state == SLEEPING then SetState(i, RUNNABLE, Kill(KillDone, i)) else Move(Kill(KillDone, i));
    case KillDone => a := Release(ProcLock(i), Run);
    case KillSkip => a := Release(ProcLock(i), Kill(KillScan, i + 1));
  }

  lemma SomeLine(s: State, c: nat) returns (a: Action)
    requires Inv(s) && c < NCPU
    ensures Allowed(s, s.cpus[c], a)
  {
    var cpu := s.cpus[c];
    assert Placed(cpu) && FitsIn(cpu, s.procs) && Knows(s, cpu);
    if cpu.pc.Sched? {
      a := SchedLine(s, cpu);
    } else if cpu.pc.Wake? {
      a := WakeLine(s, cpu);
    } else if cpu.pc.Locked? {
      a := Release(Other(cpu.pc.id), cpu.pc.back);
    } else {
      var p := cpu.proc.value;
      match cpu.pc
      case Sleep(_, _, _) => a := SleepLine(s, cpu, p);
      case Alloc(_, _) => a := AllocLine(s, cpu, p);
      case Fork(_, _) => a := ForkLine(s, cpu, p);
      case Exit(_, _) => assert InFamily(s, p); a := ExitLine(s, cpu, p);
      case Wait(_, _, _) => a := WaitLine(s, cpu, p);
      case Kill(_, _) => a := KillLine(s, cpu, p);
      case _ => a := SwitchLine(s, cpu, p);
    }
  }

  /**
   Wherever a run has led, every CPU has a line to execute, one that does not panic;
   what may keep it waiting is only a lock.
   */
  lemma NoCpuStuck(states: seq<State>, turns: seq<Turn>, n: nat, c: nat)
    requires Interleaving(states, turns) && n < |states| && Shape(states[n]) && c < NCPU
    ensures exists a ::
      && Allowed(states[n], states[n].cpus[c], a) && !Panics(states[n], c, a)
      && ((a.Acquire? && a.lock in states[n].owner) || Step(states[n], c, a, true, Apply(states[n], c, a, true)))
  {
    RunKeepsInv(states, turns, n);
    var a := SomeLine(states[n], c);
    InvNoPanic(states[n], c, a);
  }

  // ----- wait -----

  // wait() with the lock of a zombie child is at the line that looks at it.
  lemma AtZombie(s: State, c: nat, z: nat)
    requires Inv(s) && c < NCPU && z < NPROC && s.cpus[c].pc.Wait? && s.cpus[c].pc.t != WaitReap
    requires Holding(s, c, ProcLock(z)) && s.procs[z].state == ZOMBIE && s.procs[z].parent == s.cpus[c].proc
    ensures s.cpus[c].pc == Wait(WaitCheck, z, s.cpus[c].pc.flag)
  {
    assert Holds(s.cpus[c], ProcLock(z)) <==> Holding(s, c, ProcLock(z));
    assert Placed(s.cpus[c]) && FitsIn(s.cpus[c], s.procs) && Knows(s, s.cpus[c]);
  }

  /**
   Whenever a parent in wait() has the lock of a zombie child, and copying the exit
   status has not failed, its CPU can take a step that frees the child's entry and
   changes no other.
   */
  lemma WaitCanCollect(states: seq<State>, turns: seq<Turn>, n: nat, c: nat, z: nat)
    requires Interleaving(states, turns) && n < |states| && Shape(states[n]) && c < NCPU && z < NPROC
    requires states[n].cpus[c].pc.Wait? && states[n].cpus[c].pc.t != WaitReap && Holding(states[n], c, ProcLock(z))
    requires states[n].procs[z].state == ZOMBIE && states[n].procs[z].parent == states[n].cpus[c].proc
    ensures exists a, s' :: Step(states[n], c, a, true, s') && Collected(states[n], s', z)
  {
    RunKeepsInv(states, turns, n);
    AtZombie(states[n], c, z);
    var a := Put(z, Cleared, Wait(WaitReap, z, states[n].cpus[c].pc.flag));
    assert Placed(states[n].cpus[c]);
    var s' := Apply(states[n], c, a, true);
    assert Step(states[n], c, a, true, s') && Collected(states[n], s', z);
  }

  ghost predicate Collected(s: State, s': State, z: nat) {
    && |s'.procs| == |s.procs| && z < |s.procs| && s'.procs[z].state == UNUSED && s'.procs[z].parent == None
    && forall q :: 0 <= q < |s.procs| && q != z ==> s'.procs[q] == s.procs[q]
  }

  // ----- kill -----

  // kill() has found its process and marked it.
  predicate Found(pc: Pc) {
    pc.Kill? && (pc.x == KillWake || pc.x == KillDone)
  }

  // A process kill() has marked is killed, and once kill() is through with it, awake.
  ghost predicate KillFits(procs: seq<Proc>, pc: Pc) {
    Found(pc) && pc.i < |procs| ==>
      procs[pc.i].killed && (pc.x == KillDone ==> procs[pc.i].state != SLEEPING)
  }

  ghost predicate KillInv(s: State) {
    Shape(s) && forall c :: 0 <= c < NCPU ==> KillFits(s.procs, s.cpus[c].pc)
  }

  // The killed flag is cleared, and a process put to sleep, with its lock held.
  lemma KilledStays(s: State, c: nat, a: Action, on: bool, x: nat)
    requires Deed(s, c, a) && x < NPROC && !Holds(s.cpus[c], ProcLock(x))
    ensures var (was, now) := (s.procs[x], Apply(s, c, a, on).procs[x]);
      now.state == was.state && (was.killed ==> now.killed)
  {
  }

  // The lines that lead to those two.
  predicate FromKill(s: State, pc: Pc, a: Action, pc': Pc)
    requires pc'.Kill?
  {
    || (pc == Kill(KillHeld, pc'.i) && a == Put(pc'.i, NowKilled, Kill(KillWake, pc'.i)))
    || (pc == Kill(KillWake, pc'.i) && pc'.i < |s.procs| &&
        a == if s.procs[pc'.i].state == SLEEPING then SetState(pc'.i, RUNNABLE, pc') else Move(pc'))
  }

  lemma MoveToKill(s: State, cpu: Cpu, a: Action)
    requires |s.procs| == NPROC && Placed(cpu) && Allowed(s, cpu, a) && a.Move? && Found(a.pc)
    ensures FromKill(s, cpu.pc, a, a.pc)
  {
  }

  lemma PutToKill(s: State, cpu: Cpu, a: Action)
    requires |s.procs| == NPROC && Placed(cpu) && Allowed(s, cpu, a) && a.Put? && Found(a.pc)
    ensures FromKill(s, cpu.pc, a, a.pc)
  {
  }

  lemma ReleaseNotKill(s: State, cpu: Cpu, a: Action)
    requires |s.procs| == NPROC && Placed(cpu) && Allowed(s, cpu, a) && a.Release?
    ensures !Found(a.pc)
  {
  }

  lemma OthersNotKill(s: State, cpu: Cpu, a: Action, k: Context, on: bool)
    requires |s.procs| == NPROC && Placed(cpu) && Allowed(s, cpu, a) && !a.Move? && !a.Put? && !a.Release?
    ensures !Found(NewCpu(cpu, a, k, on).pc)
  {
  }

  lemma KillLineFits(s: State, c: nat, a: Action, on: bool)
    requires Inv(s) && MayStep(s, c, a) && KillFits(s.procs, s.cpus[c].pc)
    ensures KillFits(Apply(s, c, a, on).procs, Apply(s, c, a, on).cpus[c].pc)
  {
    var cpu := s.cpus[c];
    assert Placed(cpu);
    if Found(Apply(s, c, a, on).cpus[c].pc) {
      match a
      case Move(_) => MoveToKill(s, cpu, a);
      case Put(_, _, _) => PutToKill(s, cpu, a);
      case Release(_, _) => ReleaseNotKill(s, cpu, a);
      case _ => OthersNotKill(s, cpu, a, SavedContext(s, cpu), on);
    }
  }

  lemma StepKeepsKill(s: State, c: nat, a: Action, on: bool, s': State)
    requires Inv(s) && KillInv(s) && Step(s, c, a, on, s')
    ensures KillInv(s')
  {
    StepDeed(s, c, a);
    forall d | 0 <= d < NCPU ensures KillFits(s'.procs, s'.cpus[d].pc) {
      if d == c {
        KillLineFits(s, c, a, on);
      } else {
        var pc := s.cpus[d].pc;
        assert KillFits(s.procs, pc) && s'.cpus[d] == s.cpus[d];
        if Found(pc) && pc.i < NPROC {
          LockAlone(s, d, c, ProcLock(pc.i));
          KilledStays(s, c, a, on, pc.i);
        }
      }
    }
  }

  lemma {:induction false} RunKeepsKill(states: seq<State>, turns: seq<Turn>, n: nat)
    requires Interleaving(states, turns) && n < |states|
    ensures KillInv(states[n])
  {
    if n > 0 {
      RunKeepsKill(states, turns, n - 1);
      RunKeepsInv(states, turns, n - 1);
      assert StepAt(states, turns, n - 1);
      var t := turns[n - 1];
      StepKeepsKill(states[n - 1], t.c, t.a, t.on, states[n]);
    }
  }

  /** When kill() is about to let go of a process it has found, that process is marked killed and is not asleep. */
  lemma KilledIsAwake(states: seq<State>, turns: seq<Turn>, n: nat, c: nat, x: nat)
    requires Interleaving(states, turns) && n < |states| && Shape(states[n]) && c < NCPU && x < NPROC
    requires states[n].cpus[c].pc == Kill(KillDone, x)
    ensures states[n].procs[x].killed && states[n].procs[x].state != SLEEPING
  {
    RunKeepsKill(states, turns, n);
    assert KillFits(states[n].procs, states[n].cpus[c].pc);
  }
}
