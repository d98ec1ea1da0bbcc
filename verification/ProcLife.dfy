/**
 A whole life of a process, as one run from boot: init forks a child and goes to
 sleep in wait(), the child exits and wakes it, and wait() gives the child's entry
 back.  Three CPUs take part; the run is built up line by line.
 */
module ProcLife {
  import opened Common
  import opened ProcMachine
  import opened ProcRuns

  // ----- the part of the machine that moves -----

  // The first three CPUs and the first two entries of the table.
  datatype Scene = Scene(c0: Cpu, c1: Cpu, c2: Cpu, p0: Proc, p1: Proc, owner: map<Lock, nat>)

  const IDLE: Cpu := Cpu(None, Sched(SchedLoop, 0), 0, true)
  const FREE: Proc := Proc(UNUSED, NoChan, None, false, Forkret, None)

  // The whole machine: the other CPUs are in their schedulers, the other entries are free, and init is entry 0.
  function Whole(x: Scene): State {
    State([x.p0, x.p1] + seq(NPROC - 2, _ => FREE), [x.c0, x.c1, x.c2] + seq(NCPU - 3, _ => IDLE), x.owner, 0)
  }

  function CpuOf(x: Scene, c: nat): Cpu {
    if c == 0 then x.c0 else if c == 1 then x.c1 else x.c2
  }

  function WithCpu(x: Scene, c: nat, cpu: Cpu): Scene {
    if c == 0 then x.(c0 := cpu) else if c == 1 then x.(c1 := cpu) else x.(c2 := cpu)
  }

  function ProcOf(x: Scene, p: nat): Proc {
    if p == 0 then x.p0 else x.p1
  }

  function WithProc(x: Scene, p: nat, q: Proc): Scene {
    if p == 0 then x.(p0 := q) else x.(p1 := q)
  }

  // What an action of CPU `c` writes to the table.
  function Effect(x: Scene, c: nat, a: Action): Scene {
    var cpu := CpuOf(x, c);
    match a
    case Put(p, w, _) => WithProc(x, p, Written(ProcOf(x, p), w, cpu.proc))
    case SwitchIn => if cpu.proc.None? then x else
      WithProc(x, cpu.proc.value, ProcOf(x, cpu.proc.value).(context := Loaded))
    case SwitchOut => if cpu.proc.None? || !cpu.pc.AtSched? then x else
      WithProc(x, cpu.proc.value, ProcOf(x, cpu.proc.value).(context := cpu.pc.k))
    case _ => x
  }

  function Next(x: Scene, c: nat, a: Action): Scene {
    var cpu := CpuOf(x, c);
    var k := if cpu.proc.Some? then ProcOf(x, cpu.proc.value).context else AfterExit;
    WithCpu(Effect(x, c, a), c, NewCpu(cpu, a, k, true)).(owner := NewOwner(x.owner, c, a))
  }

  // CPU `c` may act, and only the scene changes.
  predicate Acts(x: Scene, c: nat, a: Action) {
    && c < 3 && Allowed(Whole(x), CpuOf(x, c), a) && (a.Acquire? ==> a.lock !in x.owner)
    && (CpuOf(x, c).proc.Some? ==> CpuOf(x, c).proc.value < 2) && (a.Put? ==> a.p < 2)
  }

  lemma NextIsApply(x: Scene, c: nat, a: Action)
    requires Acts(x, c, a)
    ensures Apply(Whole(x), c, a, true) == Whole(Next(x, c, a))
  {
    var s, s', y := Whole(x), Apply(Whole(x), c, a, true), Whole(Next(x, c, a));
    assert s.cpus[c] == CpuOf(x, c);
    assert s'.cpus == y.cpus;
    assert s'.procs == y.procs;
  }

  // ----- runs that lead to a scene -----

  // A run that ends in `s` and passes through the states of `marks`, in this order.
  ghost predicate Leads(states: seq<State>, turns: seq<Turn>, at: seq<nat>, marks: seq<State>, s: State) {
    && Interleaving(states, turns) && states[|turns|] == s && |at| == |marks|
    && (forall i :: 0 <= i < |at| ==> at[i] < |states| && states[at[i]] == marks[i])
    && (forall i, j :: 0 <= i < j < |at| ==> at[i] <= at[j])
  }

  ghost predicate Found(marks: seq<State>, s: State) {
    exists states: seq<State>, turns: seq<Turn>, at: seq<nat> :: Leads(states, turns, at, marks, s)
  }

  lemma Extend(marks: seq<State>, s: State, c: nat, a: Action, s': State)
    requires Found(marks, s) && Step(s, c, a, true, s')
    ensures Found(marks, s')
  {
    var states: seq<State>, turns: seq<Turn>, at: seq<nat> :| Leads(states, turns, at, marks, s);
    var states', turns' := states + [s'], turns + [Turn(c, a, true)];
    forall i | 0 <= i < |turns'| ensures StepAt(states', turns', i) {
      if i < |turns| { assert StepAt(states, turns, i); }
    }
    assert Leads(states', turns', at, marks, s');
  }

  lemma Mark(marks: seq<State>, s: State)
    requires Found(marks, s)
    ensures Found(marks + [s], s)
  {
    var states: seq<State>, turns: seq<Turn>, at: seq<nat> :| Leads(states, turns, at, marks, s);
    var at', marks' := at + [|turns|], marks + [s];
    forall i | 0 <= i < |at'| ensures at'[i] < |states| && states[at'[i]] == marks'[i] {
      if i < |at| { assert at'[i] == at[i] && marks'[i] == marks[i]; }
    }
    assert Leads(states, turns, at', marks', s);
  }

  lemma Go(marks: seq<State>, x: Scene, c: nat, a: Action) returns (y: Scene)
    requires Found(marks, Whole(x)) && Acts(x, c, a)
    ensures y == Next(x, c, a) && Found(marks, Whole(y))
  {
    y := Next(x, c, a);
    NextIsApply(x, c, a);
    assert Whole(x).cpus[c] == CpuOf(x, c);
    Extend(marks, Whole(x), c, a, Whole(y));
  }

  // The kinds of step, with interrupts as they are with a lock held and without one.

  lemma Moves(marks: seq<State>, x: Scene, c: nat, pc: Pc) returns (y: Scene)
    requires Found(marks, Whole(x)) && Acts(x, c, Move(pc)) && CpuOf(x, c).intr == (CpuOf(x, c).noff == 0)
    ensures Found(marks, Whole(y)) && y == WithCpu(x, c, CpuOf(x, c).(pc := pc))
  {
    y := Go(marks, x, c, Move(pc));
  }

  lemma Takes(marks: seq<State>, x: Scene, c: nat, lock: Lock, pc: Pc) returns (y: Scene)
    requires Found(marks, Whole(x)) && Acts(x, c, Acquire(lock, pc))
    ensures Found(marks, Whole(y))
    ensures y == WithCpu(x, c, Cpu(CpuOf(x, c).proc, pc, CpuOf(x, c).noff + 1, false)).(owner := x.owner[lock := c])
  {
    y := Go(marks, x, c, Acquire(lock, pc));
  }

  // `rest` is what stays locked.
  lemma Drops(marks: seq<State>, x: Scene, c: nat, lock: Lock, pc: Pc, rest: map<Lock, nat>) returns (y: Scene)
    requires Found(marks, Whole(x)) && Acts(x, c, Release(lock, pc)) && rest == x.owner - {lock}
    requires CpuOf(x, c).noff > 0 && !CpuOf(x, c).intr
    ensures Found(marks, Whole(y))
    ensures y == WithCpu(x, c, Cpu(CpuOf(x, c).proc, pc, CpuOf(x, c).noff - 1, CpuOf(x, c).noff == 1)).(owner := rest)
  {
    y := Go(marks, x, c, Release(lock, pc));
  }

  lemma Puts(marks: seq<State>, x: Scene, c: nat, p: nat, w: Write, pc: Pc) returns (y: Scene)
    requires Found(marks, Whole(x)) && Acts(x, c, Put(p, w, pc))
    ensures Found(marks, Whole(y))
    ensures y == WithCpu(WithProc(x, p, Written(ProcOf(x, p), w, CpuOf(x, c).proc)), c, CpuOf(x, c).(pc := pc))
  {
    y := Go(marks, x, c, Put(p, w, pc));
  }

  // ----- the lines of each function -----

  // A process's entry between calls, and a CPU that runs it without a lock.
  function Alive(st: ProcState, parent: Option<nat>, maker: Option<nat>, k: Context): Proc {
    Proc(st, NoChan, parent, false, k, maker)
  }

  function Running(p: nat): Cpu { Cpu(Some(p), Run, 0, true) }

  // The scheduler takes up process `p`.
  lemma Dispatch(marks: seq<State>, x: Scene, c: nat, p: nat) returns (y: Scene)
    requires Found(marks, Whole(x)) && c < 3 && p < 2 && CpuOf(x, c) == Cpu(None, Sched(SchedLoop, p), 0, true)
    requires ProcOf(x, p).state == RUNNABLE && x.owner == map[]
    ensures Found(marks, Whole(y))
    ensures y == WithCpu(WithProc(x, p, ProcOf(x, p).(state := RUNNING, context := Loaded)), c,
                         Cpu(Some(p), Resumed(ProcOf(x, p).context), 1, false)).(owner := map[ProcLock(p) := c])
  {
    y := Takes(marks, x, c, ProcLock(p), Sched(SchedHeld, p));
    y := Puts(marks, y, c, p, NewState(RUNNING), Sched(SchedChosen, p));
    y := Go(marks, y, c, SetProc(Some(p), Sched(SchedSwitch, p)));
    y := Go(marks, y, c, SwitchIn);
  }

  // A new process returns from forkret.
  lemma FirstRun(marks: seq<State>, x: Scene, c: nat, p: nat) returns (y: Scene)
    requires Found(marks, Whole(x)) && c < 3 && p < 2 && CpuOf(x, c) == Cpu(Some(p), Resumed(Forkret), 1, false)
    requires x.owner == map[ProcLock(p) := c]
    ensures Found(marks, Whole(y)) && y == WithCpu(x, c, Running(p)).(owner := map[])
  {
    y := Drops(marks, x, c, ProcLock(p), Run, map[]);
  }

  // sched's switch, and the scheduler's lines after it.
  lemma GivesUp(marks: seq<State>, x: Scene, c: nat, p: nat, k: Context) returns (y: Scene)
    requires Found(marks, Whole(x)) && c < 3 && p < 2 && CpuOf(x, c) == Cpu(Some(p), AtSched(k), 1, false)
    requires x.owner == map[ProcLock(p) := c]
    ensures Found(marks, Whole(y))
    ensures y == WithCpu(WithProc(x, p, ProcOf(x, p).(context := k)), c,
                         Cpu(None, Sched(SchedLoop, p + 1), 0, true)).(owner := map[])
  {
    y := Go(marks, x, c, SwitchOut);
    y := Go(marks, y, c, SetProc(None, Sched(SchedDone, p)));
    y := Drops(marks, y, c, ProcLock(p), Sched(SchedLoop, p + 1), map[]);
  }

  // The scheduler passes over process 0.
  lemma PassesOver(marks: seq<State>, x: Scene, c: nat) returns (y: Scene)
    requires Found(marks, Whole(x)) && c < 3 && CpuOf(x, c) == IDLE && x.p0.state != RUNNABLE && x.owner == map[]
    ensures Found(marks, Whole(y)) && y == WithCpu(x, c, Cpu(None, Sched(SchedLoop, 1), 0, true))
  {
    y := Takes(marks, x, c, ProcLock(0), Sched(SchedHeld, 0));
    y := Moves(marks, y, c, Sched(SchedDone, 0));
    y := Drops(marks, y, c, ProcLock(0), Sched(SchedLoop, 1), map[]);
  }

  // Process 0 finds entry 1 in allocproc and sets it up.
  lemma Allocates(marks: seq<State>, x: Scene) returns (y: Scene)
    requires Found(marks, Whole(x)) && x.c0 == Cpu(Some(0), Alloc(AllocScan, 1), 0, true)
    requires x.p1 == FREE && x.owner == map[]
    ensures Found(marks, Whole(y))
    ensures y == x.(c0 := Cpu(Some(0), Alloc(AllocUsed, 1), 1, false),
                    p1 := FREE.(state := USED, maker := Some(0)), owner := map[ProcLock(1) := 0])
  {
    y := Takes(marks, x, 0, ProcLock(1), Alloc(AllocHeld, 1));
    y := Puts(marks, y, 0, 1, NewState(USED), Alloc(AllocUsed, 1));
  }

  lemma SetsUp(marks: seq<State>, x: Scene) returns (y: Scene)
    requires Found(marks, Whole(x)) && x.c0 == Cpu(Some(0), Alloc(AllocUsed, 1), 1, false)
    requires x.owner == map[ProcLock(1) := 0]
    ensures Found(marks, Whole(y))
    ensures y == x.(c0 := Cpu(Some(0), Fork(ForkWait, 1), 0, true), p1 := x.p1.(context := Forkret), owner := map[])
  {
    y := Puts(marks, x, 0, 1, NewContext, Fork(ForkCopied, 1));
    y := Drops(marks, y, 0, ProcLock(1), Fork(ForkWait, 1), map[]);
  }

  // Its own entry is not free.
  lemma SkipsItself(marks: seq<State>, x: Scene) returns (y: Scene)
    requires Found(marks, Whole(x)) && x.c0 == Running(0) && x.p0.state == RUNNING && x.owner == map[]
    ensures Found(marks, Whole(y)) && y == x.(c0 := Cpu(Some(0), Alloc(AllocScan, 1), 0, true))
  {
    y := Moves(marks, x, 0, Alloc(AllocScan, 0));
    y := Takes(marks, y, 0, ProcLock(0), Alloc(AllocHeld, 0));
    y := Moves(marks, y, 0, Alloc(AllocSkip, 0));
    y := Drops(marks, y, 0, ProcLock(0), Alloc(AllocScan, 1), map[]);
  }

  // The rest of fork.
  lemma Adopts(marks: seq<State>, x: Scene) returns (y: Scene)
    requires Found(marks, Whole(x)) && x.c0 == Cpu(Some(0), Fork(ForkWait, 1), 0, true) && x.owner == map[]
    ensures Found(marks, Whole(y))
    ensures y == x.(c0 := Cpu(Some(0), Fork(ForkStart, 1), 0, true), p1 := x.p1.(parent := Some(0)))
  {
    y := Takes(marks, x, 0, WaitLock, Fork(ForkLink, 1));
    y := Puts(marks, y, 0, 1, NewParent(0), Fork(ForkLinked, 1));
    y := Drops(marks, y, 0, WaitLock, Fork(ForkStart, 1), map[]);
  }

  lemma Starts(marks: seq<State>, x: Scene) returns (y: Scene)
    requires Found(marks, Whole(x)) && x.c0 == Cpu(Some(0), Fork(ForkStart, 1), 0, true) && x.owner == map[]
    ensures Found(marks, Whole(y)) && y == x.(c0 := Running(0), p1 := x.p1.(state := RUNNABLE))
  {
    y := Takes(marks, x, 0, ProcLock(1), Fork(ForkMark, 1));
    y := Puts(marks, y, 0, 1, NewState(RUNNABLE), Fork(ForkDone, 1));
    y := Drops(marks, y, 0, ProcLock(1), Run, map[]);
  }

  // wait looks at the child, which is not a zombie yet.
  lemma LooksAtChild(marks: seq<State>, x: Scene) returns (y: Scene)
    requires Found(marks, Whole(x)) && x.c0 == Cpu(Some(0), Wait(WaitScan, 1, false), 1, false)
    requires x.p1.parent == Some(0) && x.p1.state == RUNNABLE && x.owner == map[WaitLock := 0]
    ensures Found(marks, Whole(y)) && y == x.(c0 := Cpu(Some(0), Wait(WaitScan, 2, true), 1, false))
  {
    y := Takes(marks, x, 0, ProcLock(1), Wait(WaitCheck, 1, false));
    y := Moves(marks, y, 0, Wait(WaitSkip, 1, false));
    y := Drops(marks, y, 0, ProcLock(1), Wait(WaitScan, 2, true), map[WaitLock := 0]);
  }

  lemma {:induction false} ScansOn(marks: seq<State>, x: Scene, i: nat) returns (y: Scene)
    requires Found(marks, Whole(x)) && 2 <= i <= NPROC && x.c0 == Cpu(Some(0), Wait(WaitScan, i, true), 1, false)
    ensures Found(marks, Whole(y)) && y == x.(c0 := Cpu(Some(0), Wait(WaitScan, NPROC, true), 1, false))
    decreases NPROC - i
  {
    y := x;
    if i < NPROC {
      y := Moves(marks, x, 0, Wait(WaitScan, i + 1, true));
      y := ScansOn(marks, y, i + 1);
    }
  }

  // And goes to sleep.
  lemma AsksKilled(marks: seq<State>, x: Scene) returns (y: Scene)
    requires Found(marks, Whole(x)) && x.c0 == Cpu(Some(0), Wait(WaitScan, NPROC, true), 1, false)
    requires x.owner == map[WaitLock := 0] && !x.p0.killed
    ensures Found(marks, Whole(y)) && y == x.(c0 := Cpu(Some(0), Sleep(SleepEnter, WaitChan(0), WaitLock), 1, false))
  {
    y := Takes(marks, x, 0, ProcLock(0), Wait(WaitKilled, NPROC, true));
    y := Moves(marks, y, 0, Wait(WaitAsked, NPROC, false));
    y := Drops(marks, y, 0, ProcLock(0), Sleep(SleepEnter, WaitChan(0), WaitLock), map[WaitLock := 0]);
  }

  lemma LetsGo(marks: seq<State>, x: Scene) returns (y: Scene)
    requires Found(marks, Whole(x)) && x.c0 == Cpu(Some(0), Sleep(SleepEnter, WaitChan(0), WaitLock), 1, false)
    requires x.owner == map[WaitLock := 0]
    ensures Found(marks, Whole(y))
    ensures y == x.(c0 := Cpu(Some(0), Sleep(SleepReady, WaitChan(0), WaitLock), 1, false),
                    owner := map[ProcLock(0) := 0])
  {
    y := Takes(marks, x, 0, ProcLock(0), Sleep(SleepHeld, WaitChan(0), WaitLock));
    y := Drops(marks, y, 0, WaitLock, Sleep(SleepReady, WaitChan(0), WaitLock), map[ProcLock(0) := 0]);
  }

  lemma FallsAsleep(marks: seq<State>, x: Scene) returns (y: Scene)
    requires Found(marks, Whole(x)) && x.c0 == Cpu(Some(0), Sleep(SleepReady, WaitChan(0), WaitLock), 1, false)
    ensures Found(marks, Whole(y))
    ensures y == x.(c0 := Cpu(Some(0), AtSched(AfterSleep(WaitChan(0), WaitLock)), 1, false),
                    p0 := x.p0.(state := SLEEPING, chan := WaitChan(0)))
  {
    y := Puts(marks, x, 0, 0, NewChan(WaitChan(0)), Sleep(SleepMark, WaitChan(0), WaitLock));
    y := Puts(marks, y, 0, 0, NewState(SLEEPING), AtSched(AfterSleep(WaitChan(0), WaitLock)));
  }

  // The child's exit: it has no children of its own.
  lemma {:induction false} Reparents(marks: seq<State>, x: Scene, i: nat) returns (y: Scene)
    requires Found(marks, Whole(x)) && i <= NPROC && x.c1 == Cpu(Some(1), Exit(Reparent, i), 1, false)
    requires x.p0.parent == None && x.p1.parent == Some(0)
    ensures Found(marks, Whole(y)) && y == x.(c1 := Cpu(Some(1), Wake(WakeNext, WaitChan(0), 0, ToExit), 1, false))
    decreases NPROC - i
  {
    if i < NPROC {
      y := Moves(marks, x, 1, Exit(Reparent, i + 1));
      y := Reparents(marks, y, i + 1);
    } else {
      y := Moves(marks, x, 1, Wake(WakeNext, WaitChan(0), 0, ToExit));
    }
  }

  // wakeup finds the parent asleep.
  lemma WakesParent(marks: seq<State>, x: Scene) returns (y: Scene)
    requires Found(marks, Whole(x)) && x.c1 == Cpu(Some(1), Wake(WakeNext, WaitChan(0), 0, ToExit), 1, false)
    requires x.p0.state == SLEEPING && x.p0.chan == WaitChan(0) && x.owner == map[WaitLock := 1]
    ensures Found(marks, Whole(y))
    ensures y == x.(c1 := Cpu(Some(1), Wake(WakeNext, WaitChan(0), 1, ToExit), 1, false),
                    p0 := x.p0.(state := RUNNABLE))
  {
    y := Takes(marks, x, 1, ProcLock(0), Wake(WakeHeld, WaitChan(0), 0, ToExit));
    y := Puts(marks, y, 1, 0, NewState(RUNNABLE), Wake(WakeDone, WaitChan(0), 0, ToExit));
    y := Drops(marks, y, 1, ProcLock(0), Wake(WakeNext, WaitChan(0), 1, ToExit), map[WaitLock := 1]);
  }

  lemma {:induction false} WakesOn(marks: seq<State>, x: Scene, i: nat) returns (y: Scene)
    requires Found(marks, Whole(x)) && 2 <= i <= NPROC
    requires x.c1 == Cpu(Some(1), Wake(WakeNext, WaitChan(0), i, ToExit), 1, false) && x.owner == map[WaitLock := 1]
    ensures Found(marks, Whole(y)) && y == x.(c1 := Cpu(Some(1), Exit(ExitLock, 0), 1, false))
    decreases NPROC - i
  {
    if i < NPROC {
      y := Takes(marks, x, 1, ProcLock(i), Wake(WakeHeld, WaitChan(0), i, ToExit));
      y := Moves(marks, y, 1, Wake(WakeDone, WaitChan(0), i, ToExit));
      y := Drops(marks, y, 1, ProcLock(i), Wake(WakeNext, WaitChan(0), i + 1, ToExit), map[WaitLock := 1]);
      y := WakesOn(marks, y, i + 1);
    } else {
      y := Moves(marks, x, 1, Exit(ExitLock, 0));
    }
  }

  lemma BecomesZombie(marks: seq<State>, x: Scene) returns (y: Scene)
    requires Found(marks, Whole(x)) && x.c1 == Cpu(Some(1), Exit(ExitLock, 0), 1, false)
    requires x.owner == map[WaitLock := 1]
    ensures Found(marks, Whole(y))
    ensures y == x.(c1 := Cpu(Some(1), AtSched(AfterExit), 1, false), p1 := x.p1.(state := ZOMBIE),
                    owner := map[ProcLock(1) := 1])
  {
    y := Takes(marks, x, 1, ProcLock(1), Exit(ExitMark, 0));
    y := Puts(marks, y, 1, 1, NewState(ZOMBIE), Exit(ExitRelease, 0));
    y := Drops(marks, y, 1, WaitLock, AtSched(AfterExit), map[ProcLock(1) := 1]);
  }

  // The parent, on a third CPU, comes out of sleep and looks again.
  lemma WakesUp(marks: seq<State>, x: Scene) returns (y: Scene)
    requires Found(marks, Whole(x)) && x.owner == map[ProcLock(0) := 2]
    requires x.c2 == Cpu(Some(0), Resumed(AfterSleep(WaitChan(0), WaitLock)), 1, false)
    ensures Found(marks, Whole(y))
    ensures y == x.(c2 := Cpu(Some(0), Sleep(SleepReacquire, WaitChan(0), WaitLock), 0, true),
                    p0 := x.p0.(chan := NoChan), owner := map[])
  {
    y := Puts(marks, x, 2, 0, NewChan(NoChan), Sleep(SleepTidy, WaitChan(0), WaitLock));
    y := Drops(marks, y, 2, ProcLock(0), Sleep(SleepReacquire, WaitChan(0), WaitLock), map[]);
  }

  lemma LooksAgain(marks: seq<State>, x: Scene) returns (y: Scene)
    requires Found(marks, Whole(x)) && x.c2 == Cpu(Some(0), Sleep(SleepReacquire, WaitChan(0), WaitLock), 0, true)
    requires x.p0.parent == None && x.owner == map[]
    ensures Found(marks, Whole(y))
    ensures y == x.(c2 := Cpu(Some(0), Wait(WaitScan, 1, false), 1, false), owner := map[WaitLock := 2])
  {
    y := Takes(marks, x, 2, WaitLock, Wait(WaitScan, 0, false));
    y := Moves(marks, y, 2, Wait(WaitScan, 1, false));
  }

  lemma Collects(marks: seq<State>, x: Scene) returns (y: Scene)
    requires Found(marks, Whole(x)) && x.c2 == Cpu(Some(0), Wait(WaitScan, 1, false), 1, false)
    requires x.p1.parent == Some(0) && x.p1.state == ZOMBIE && x.owner == map[WaitLock := 2]
    ensures Found(marks, Whole(y)) && y.p0 == x.p0 && y.p1.state == UNUSED && y.p1.parent == None
  {
    y := Takes(marks, x, 2, ProcLock(1), Wait(WaitCheck, 1, false));
    y := Puts(marks, y, 2, 1, Cleared, Wait(WaitReap, 1, false));
  }

  // ----- the run -----

  const START: Scene := Scene(IDLE, IDLE, IDLE, FREE.(state := RUNNABLE), FREE, map[])

  lemma Started()
    ensures Found([], Whole(START))
  {
    var s := Whole(START);
    assert Boot(s);
    assert Leads([s], [], [], [], s);
  }

  // Init has forked, and is off its CPU in wait().
  lemma ParentSleeps() returns (y: Scene)
    ensures Found([], Whole(y)) && y.p0.state == SLEEPING && y.p0.chan == WaitChan(0) && y.p0.parent == None
    ensures y.p1 == Alive(RUNNABLE, Some(0), Some(0), Forkret) && y.c1 == y.c2 == IDLE && y.owner == map[]
    ensures y.p0.context == AfterSleep(WaitChan(0), WaitLock)
  {
    Started();
    y := Dispatch([], START, 0, 0);
    y := FirstRun([], y, 0, 0);
    y := SkipsItself([], y);
    y := Allocates([], y);
    y := SetsUp([], y);
    y := Adopts([], y);
    y := Starts([], y);
    y := Takes([], y, 0, WaitLock, Wait(WaitScan, 0, false));
    y := Moves([], y, 0, Wait(WaitScan, 1, false));
    y := LooksAtChild([], y);
    y := ScansOn([], y, 2);
    y := AsksKilled([], y);
    y := LetsGo([], y);
    y := FallsAsleep([], y);
    y := GivesUp([], y, 0, 0, AfterSleep(WaitChan(0), WaitLock));
  }

  // The child has run and exited.
  lemma ChildExits(marks: seq<State>, x: Scene) returns (y: Scene)
    requires Found(marks, Whole(x)) && x.p0.state == SLEEPING && x.p0.chan == WaitChan(0) && x.p0.parent == None
    requires x.p1 == Alive(RUNNABLE, Some(0), Some(0), Forkret) && x.c1 == x.c2 == IDLE && x.owner == map[]
    ensures Found(marks, Whole(y)) && y.p0 == x.p0.(state := RUNNABLE) && y.c2 == IDLE && y.owner == map[]
    ensures y.p1.state == ZOMBIE && y.p1.parent == Some(0)
  {
    y := PassesOver(marks, x, 1);
    y := Dispatch(marks, y, 1, 1);
    y := FirstRun(marks, y, 1, 1);
    y := Takes(marks, y, 1, WaitLock, Exit(Reparent, 0));
    y := Reparents(marks, y, 0);
    y := WakesParent(marks, y);
    y := Moves(marks, y, 1, Wake(WakeNext, WaitChan(0), 2, ToExit));
    y := WakesOn(marks, y, 2);
    y := BecomesZombie(marks, y);
    y := GivesUp(marks, y, 1, 1, AfterExit);
  }

  // At `i` the parent is asleep in wait(), at `j` its child is a zombie, at `k` the child is collected.
  ghost predicate LivesOut(states: seq<State>, i: nat, j: nat, k: nat, parent: nat, child: nat) {
    && i < j < k < |states| && Shape(states[i]) && Shape(states[j]) && Shape(states[k])
    && parent < NPROC && child < NPROC
    && states[i].procs[parent].state == SLEEPING && states[i].procs[parent].chan == WaitChan(parent)
    && states[i].procs[child].state == RUNNABLE && states[i].procs[child].parent == Some(parent)
    && states[j].procs[child].state == ZOMBIE && states[j].procs[child].parent == Some(parent)
    && states[j].procs[parent].state == RUNNABLE
    && states[k].procs[child].state == UNUSED && states[k].procs[child].parent == None
    && states[k].procs[parent].state == RUNNING
  }

  /**
   There is a run from boot in which a forked child exits, its parent wakes from
   wait(), and the child's entry is free again.
   */
  lemma WaitCollects()
    ensures exists states, turns, i, j, k, parent, child ::
      Interleaving(states, turns) && LivesOut(states, i, j, k, parent, child)
  {
    var x := ParentSleeps();
    Mark([], Whole(x));
    var m1 := [] + [Whole(x)];
    var y := ChildExits(m1, x);
    Mark(m1, Whole(y));
    var m2 := m1 + [Whole(y)];
    var z := Dispatch(m2, y, 2, 0);
    z := WakesUp(m2, z);
    z := LooksAgain(m2, z);
    z := Collects(m2, z);
    var states: seq<State>, turns: seq<Turn>, at: seq<nat> :| Leads(states, turns, at, m2, Whole(z));
    assert m2[0] == Whole(x) && m2[1] == Whole(y);
    assert Whole(x).procs[1] == x.p1 && Whole(y).procs[1] == y.p1 && Whole(z).procs[1] == z.p1;
    assert LivesOut(states, at[0], at[1], |turns|, 0, 1);
  }
}
