/**
 sleep() and wakeup(): a process that is to sleep on a channel cannot be missed by
 a wakeup on it, because both run under the channel's lock and each looks at the
 process under the process's own.
 */
module ProcSleep {
  import opened Common
  import opened ProcMachine
  import opened ProcInvariant
  import opened ProcParents

  // ----- being asleep on a channel -----

  // Past the point in sleep() where the channel's lock is let go, before p->state is set.
  predicate Commits(cpu: Cpu, q: nat, chan: Chan) {
    && cpu.pc.Sleep? && (cpu.pc.z == SleepReady || cpu.pc.z == SleepMark)
    && cpu.pc.chan == chan && cpu.proc == Some(q)
  }

  predicate Asleep(s: State, q: nat, chan: Chan)
    requires q < |s.procs|
  {
    s.procs[q].state == SLEEPING && s.procs[q].chan == chan
  }

  // `q` is not asleep on the channel, nor past the point of no return.
  ghost predicate Awake(s: State, q: nat, chan: Chan)
    requires q < |s.procs|
  {
    !Asleep(s, q, chan) && forall d :: 0 <= d < |s.cpus| ==> !Commits(s.cpus[d], q, chan)
  }

  // sleep() has stored the channel it will sleep on.
  ghost predicate ChanFits(s: State, cpu: Cpu) {
    cpu.pc.Sleep? && cpu.pc.z == SleepMark && cpu.proc.Some? && cpu.proc.value < |s.procs| ==>
      s.procs[cpu.proc.value].chan == cpu.pc.chan
  }

  // A wakeup has looked at `q`.
  predicate Passed(pc: Pc, q: nat)
    requires pc.Wake?
  {
    if pc.w == WakeDone then pc.i >= q else pc.i > q
  }

  // Whomever a wakeup has looked at is awake.
  ghost predicate WakeFits(s: State, cpu: Cpu) {
    cpu.pc.Wake? ==> forall q :: 0 <= q < |s.procs| && Passed(cpu.pc, q) ==> Awake(s, q, cpu.pc.chan)
  }

  ghost predicate SleepInv(s: State)
    requires Shape(s)
  {
    forall c :: 0 <= c < NCPU ==> ChanFits(s, s.cpus[c]) && WakeFits(s, s.cpus[c])
  }

  // ----- falling asleep -----

  lemma LineCommits(s: State, cpu: Cpu, a: Action, k: Context, on: bool, q: nat, chan: Chan)
    requires |s.procs| == NPROC && Placed(cpu) && Allowed(s, cpu, a) && Commits(NewCpu(cpu, a, k, on), q, chan)
    ensures cpu.proc == Some(q) && (Commits(cpu, q, chan) || cpu.pc == Sleep(SleepHeld, chan, LockOf(chan)))
  {
    match a
    case Release(_, _) => ReleaseCommits(s, cpu, a);
    case Put(_, _, _) => PutCommits(s, cpu, a);
    case _ => NoCommit(s, cpu, a, k, on);
  }

  lemma ReleaseCommits(s: State, cpu: Cpu, a: Action)
    requires |s.procs| == NPROC && Placed(cpu) && Allowed(s, cpu, a) && a.Release?
    requires a.pc.Sleep? && (a.pc.z == SleepReady || a.pc.z == SleepMark)
    ensures cpu.pc == Sleep(SleepHeld, a.pc.chan, LockOf(a.pc.chan))
  {
  }

  lemma PutCommits(s: State, cpu: Cpu, a: Action)
    requires |s.procs| == NPROC && Placed(cpu) && Allowed(s, cpu, a) && a.Put?
    requires a.pc.Sleep? && (a.pc.z == SleepReady || a.pc.z == SleepMark)
    ensures cpu.pc.Sleep? && cpu.pc.z == SleepReady && cpu.pc.chan == a.pc.chan
  {
  }

  lemma NoCommit(s: State, cpu: Cpu, a: Action, k: Context, on: bool)
    requires |s.procs| == NPROC && Placed(cpu) && Allowed(s, cpu, a) && !a.Release? && !a.Put?
    ensures var pc' := NewCpu(cpu, a, k, on).pc; pc'.Sleep? ==> pc'.z != SleepReady && pc'.z != SleepMark
  {
  }

  lemma FallsAsleep(s: State, c: nat, a: Action, on: bool, q: nat, chan: Chan)
    requires Core(s) && Deed(s, c, a) && ChanFits(s, s.cpus[c]) && q < NPROC
    requires !Asleep(s, q, chan) && Asleep(Apply(s, c, a, on), q, chan)
    ensures Commits(s.cpus[c], q, chan)
  {
    assert FitsIn(s.cpus[c], s.procs);
  }

  // Only a CPU that holds the channel's lock can put its process to sleep on it.
  lemma DozeStarts(s: State, c: nat, a: Action, on: bool, q: nat, chan: Chan)
    requires Core(s) && MayStep(s, c, a) && Deed(s, c, a) && ChanFits(s, s.cpus[c]) && q < NPROC
    requires Awake(s, q, chan) && !Awake(Apply(s, c, a, on), q, chan)
    ensures s.cpus[c].proc == Some(q) && s.cpus[c].pc == Sleep(SleepHeld, chan, LockOf(chan))
  {
    var s' := Apply(s, c, a, on);
    assert !Commits(s.cpus[c], q, chan);
    if Commits(s'.cpus[c], q, chan) {
      LineCommits(s, s.cpus[c], a, SavedContext(s, s.cpus[c]), on, q, chan);
    } else {
      OthersCommit(s, c, a, on, q, chan);
      FallsAsleep(s, c, a, on, q, chan);
    }
  }

  lemma OthersCommit(s: State, c: nat, a: Action, on: bool, q: nat, chan: Chan)
    requires Shape(s) && c < NCPU && q < NPROC && Awake(s, q, chan) && !Commits(Apply(s, c, a, on).cpus[c], q, chan)
    requires |Apply(s, c, a, on).procs| == NPROC
    ensures Awake(Apply(s, c, a, on), q, chan) <==> !Asleep(Apply(s, c, a, on), q, chan)
  {
    var s' := Apply(s, c, a, on);
    forall d | 0 <= d < |s'.cpus| ensures !Commits(s'.cpus[d], q, chan) {
      assert d != c ==> !Commits(s.cpus[d], q, chan);
    }
  }

  // A process stays awake through the steps of a CPU that does not go to sleep with the channel's lock held.
  lemma AwakeStays(s: State, c: nat, a: Action, on: bool, q: nat, chan: Chan)
    requires Core(s) && MayStep(s, c, a) && Deed(s, c, a) && ChanFits(s, s.cpus[c]) && q < NPROC
    requires Awake(s, q, chan) && (s.cpus[c].pc.Sleep? ==> !Holds(s.cpus[c], LockOf(chan)))
    ensures |Apply(s, c, a, on).procs| == NPROC && Awake(Apply(s, c, a, on), q, chan)
  {
    if !Awake(Apply(s, c, a, on), q, chan) {
      DozeStarts(s, c, a, on, q, chan);
    }
  }

  // ----- waking -----

  // A wakeup that looks at `q` with q's lock held leaves it awake.
  lemma JustWoken(s: State, c: nat, a: Action, on: bool, q: nat, chan: Chan, ret: Ret)
    requires Core(s) && MayStep(s, c, a) && q < NPROC && s.cpus[c].pc == Wake(WakeHeld, chan, q, ret)
    ensures |Apply(s, c, a, on).procs| == NPROC && Awake(Apply(s, c, a, on), q, chan)
  {
    var s' := Apply(s, c, a, on);
    assert Holding(s, c, ProcLock(q)) by { assert Holds(s.cpus[c], ProcLock(q)); }
    forall d | 0 <= d < NCPU ensures !Commits(s'.cpus[d], q, chan) {
      assert Holds(s.cpus[d], ProcLock(q)) <==> Holding(s, d, ProcLock(q));
    }
  }

  // A running process in the middle of a wakeup is awake.
  lemma SelfAwake(s: State, c: nat, q: nat, chan: Chan)
    requires Core(s) && c < NCPU && q < NPROC && s.cpus[c].proc == Some(q) && s.cpus[c].pc.Wake?
    ensures Awake(s, q, chan)
  {
    assert FitsIn(s.cpus[c], s.procs);
    forall d | 0 <= d < NCPU ensures !Commits(s.cpus[d], q, chan) {
      if d != c { SubjectsApart(s, c, d); }
    }
  }

  // A wakeup holds its channel's lock.
  lemma WakesUnderLock(cpu: Cpu)
    requires Placed(cpu) && cpu.pc.Wake?
    ensures Holds(cpu, LockOf(cpu.pc.chan))
  {
  }

  // How a wakeup gets past `q`.
  lemma LineScans(s: State, cpu: Cpu, a: Action, k: Context, on: bool, q: nat)
    requires |s.procs| == NPROC && Placed(cpu) && Allowed(s, cpu, a) && q < NPROC
    requires NewCpu(cpu, a, k, on).pc.Wake? && Passed(NewCpu(cpu, a, k, on).pc, q)
    ensures cpu.pc.Wake? && NewCpu(cpu, a, k, on).pc.chan == cpu.pc.chan
    ensures || Passed(cpu.pc, q) || cpu.pc == Wake(WakeHeld, cpu.pc.chan, q, cpu.pc.ret)
            || (cpu.pc.w == WakeNext && cpu.proc == Some(q))
  {
    if !cpu.pc.Wake? {
      if a.Move? || a.Put? { WakeStarts(s, cpu, a); } else if !a.SwitchIn? { NoWake(s, cpu, a, k, on); }
    } else {
      WakeSteps(s, cpu, a, k, on, q);
    }
  }

  lemma WakeSteps(s: State, cpu: Cpu, a: Action, k: Context, on: bool, q: nat)
    requires |s.procs| == NPROC && Placed(cpu) && Allowed(s, cpu, a) && q < NPROC && cpu.pc.Wake?
    requires NewCpu(cpu, a, k, on).pc.Wake? && Passed(NewCpu(cpu, a, k, on).pc, q)
    ensures NewCpu(cpu, a, k, on).pc.chan == cpu.pc.chan
    ensures || Passed(cpu.pc, q) || cpu.pc == Wake(WakeHeld, cpu.pc.chan, q, cpu.pc.ret)
            || (cpu.pc.w == WakeNext && cpu.proc == Some(q))
  {
  }

  // A wakeup starts with the first entry.
  lemma WakeStarts(s: State, cpu: Cpu, a: Action)
    requires |s.procs| == NPROC && Placed(cpu) && Allowed(s, cpu, a) && !cpu.pc.Wake? && (a.Move? || a.Put?)
    ensures a.pc.Wake? ==> a.pc.w == WakeNext && a.pc.i == 0
  {
  }

  lemma NoWake(s: State, cpu: Cpu, a: Action, k: Context, on: bool)
    requires |s.procs| == NPROC && Placed(cpu) && Allowed(s, cpu, a) && !cpu.pc.Wake? && !a.Move? && !a.Put?
    requires !a.SwitchIn?
    ensures !NewCpu(cpu, a, k, on).pc.Wake?
  {
  }

  // The line before the one that sets SLEEPING has stored the channel.
  lemma LineReady(s: State, cpu: Cpu, a: Action)
    requires |s.procs| == NPROC && Placed(cpu) && Allowed(s, cpu, a) && a.Put? && a.pc.Sleep? && a.pc.z == SleepMark
    ensures a.w == NewChan(a.pc.chan) && cpu.proc == Some(a.p)
  {
  }

  lemma LineUnready(s: State, cpu: Cpu, a: Action, k: Context, on: bool)
    requires |s.procs| == NPROC && Placed(cpu) && Allowed(s, cpu, a) && !a.Put?
    ensures var pc' := NewCpu(cpu, a, k, on).pc; pc'.Sleep? ==> pc'.z != SleepMark
  {
  }

  // ----- kept by every step -----

  lemma OwnChan(s: State, c: nat, a: Action, on: bool)
    requires Core(s) && MayStep(s, c, a)
    ensures ChanFits(Apply(s, c, a, on), Apply(s, c, a, on).cpus[c])
  {
    assert Placed(s.cpus[c]);
    if !a.Put? {
      LineUnready(s, s.cpus[c], a, SavedContext(s, s.cpus[c]), on);
    } else if a.pc.Sleep? && a.pc.z == SleepMark {
      LineReady(s, s.cpus[c], a);
    }
  }

  lemma OtherChan(s: State, c: nat, a: Action, on: bool, d: nat)
    requires Core(s) && Deed(s, c, a) && d < NCPU && d != c && ChanFits(s, s.cpus[d])
    ensures ChanFits(Apply(s, c, a, on), s.cpus[d])
  {
    var cpu := s.cpus[d];
    if cpu.pc.Sleep? && cpu.pc.z == SleepMark && cpu.proc.Some? && cpu.proc.value < NPROC {
      TheirsStay(s, c, a, on, d, cpu.proc.value);
      SubjectsApart(s, d, c);
      assert FitsIn(cpu, s.procs);
    }
  }

  lemma OwnWake(s: State, c: nat, a: Action, on: bool, q: nat)
    requires Core(s) && SleepInv(s) && MayStep(s, c, a) && Deed(s, c, a) && q < NPROC
    requires var pc' := Apply(s, c, a, on).cpus[c].pc; pc'.Wake? && Passed(pc', q)
    ensures |Apply(s, c, a, on).procs| == NPROC && Awake(Apply(s, c, a, on), q, Apply(s, c, a, on).cpus[c].pc.chan)
  {
    var cpu := s.cpus[c];
    assert Placed(cpu) && WakeFits(s, cpu) && ChanFits(s, cpu);
    LineScans(s, cpu, a, SavedContext(s, cpu), on, q);
    if cpu.pc == Wake(WakeHeld, cpu.pc.chan, q, cpu.pc.ret) {
      JustWoken(s, c, a, on, q, cpu.pc.chan, cpu.pc.ret);
    } else {
      if !Passed(cpu.pc, q) { SelfAwake(s, c, q, cpu.pc.chan); }
      AwakeStays(s, c, a, on, q, cpu.pc.chan);
    }
  }

  lemma OtherWake(s: State, c: nat, a: Action, on: bool, d: nat)
    requires Core(s) && SleepInv(s) && MayStep(s, c, a) && Deed(s, c, a) && d < NCPU && d != c
    ensures WakeFits(Apply(s, c, a, on), s.cpus[d])
  {
    var s' := Apply(s, c, a, on);
    if s.cpus[d].pc.Wake? {
      assert WakeFits(s, s.cpus[d]) && ChanFits(s, s.cpus[c]);
      WakesUnderLock(s.cpus[d]);
      LockAlone(s, d, c, LockOf(s.cpus[d].pc.chan));
      forall q | 0 <= q < NPROC && Passed(s.cpus[d].pc, q) ensures Awake(s', q, s.cpus[d].pc.chan) {
        AwakeStays(s, c, a, on, q, s.cpus[d].pc.chan);
      }
    }
  }

  lemma SleepKept(s: State, c: nat, a: Action, on: bool)
    requires Core(s) && SleepInv(s) && MayStep(s, c, a) && Deed(s, c, a)
    ensures Shape(Apply(s, c, a, on)) && SleepInv(Apply(s, c, a, on))
  {
    var s' := Apply(s, c, a, on);
    forall d | 0 <= d < NCPU ensures ChanFits(s', s'.cpus[d]) && WakeFits(s', s'.cpus[d]) {
      if d == c {
        OwnChan(s, c, a, on);
        forall q | 0 <= q < NPROC && s'.cpus[c].pc.Wake? && Passed(s'.cpus[c].pc, q)
          ensures Awake(s', q, s'.cpus[c].pc.chan)
        {
          OwnWake(s, c, a, on, q);
        }
      } else {
        OtherChan(s, c, a, on, d);
        OtherWake(s, c, a, on, d);
      }
    }
  }
}
