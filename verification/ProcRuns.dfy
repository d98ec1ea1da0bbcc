/** What holds in every state of every interleaving of the CPUs, from boot on. */
module ProcRuns {
  import opened Common
  import opened ProcMachine
  import opened ProcInvariant
  import opened ProcParents
  import opened ProcSleep
  import opened ProcWait

  datatype Turn = Turn(c: nat, a: Action, on: bool)

  // The states of a run, one more than its steps.
  ghost predicate Interleaving(states: seq<State>, turns: seq<Turn>) {
    && |states| == |turns| + 1 && Boot(states[0])
    && forall i :: 0 <= i < |turns| ==> StepAt(states, turns, i)
  }

  ghost predicate StepAt(states: seq<State>, turns: seq<Turn>, i: nat)
    requires i < |turns| && |states| == |turns| + 1
  {
    Step(states[i], turns[i].c, turns[i].a, turns[i].on, states[i + 1])
  }

  lemma BootCore(s: State)
    requires Boot(s) && PlacedInv(s)
    ensures Core(s)
  {
    forall c | 0 <= c < NCPU
      ensures FitsIn(s.cpus[c], s.procs) && Creates(s.cpus[c].pc) == None && Loads(s.cpus[c], s.procs) { }
    forall c, d | 0 <= c < d < NCPU ensures Apart(s.cpus[c], s.cpus[d]) { }
    forall p | 0 <= p < NPROC ensures Saved(s.procs[p].context) == None && LoadedBy(s, p) { }
  }

  lemma BootEstablishes(s: State)
    requires Boot(s)
    ensures Inv(s)
  {
    BootCore(s);
    forall p | 0 <= p < NPROC ensures InFamily(s, p) && SavedFits(s.procs, p) { }
    forall q, z | 0 <= q < NPROC && 0 <= z < NPROC ensures Safe(s, q, z) { }
    forall c | 0 <= c < NCPU ensures Knows(s, s.cpus[c]) { }
    forall c | 0 <= c < NCPU ensures ChanFits(s, s.cpus[c]) && WakeFits(s, s.cpus[c]) && WakerFits(s, s.cpus[c]) { }
  }

  lemma {:induction false} RunKeepsInv(states: seq<State>, turns: seq<Turn>, n: nat)
    requires Interleaving(states, turns) && n < |states|
    ensures Inv(states[n])
  {
    if n == 0 {
      BootEstablishes(states[0]);
    } else {
      RunKeepsInv(states, turns, n - 1);
      assert StepAt(states, turns, n - 1);
      var t := turns[n - 1];
      StepKeepsInv(states[n - 1], t.c, t.a, t.on, states[n]);
    }
  }

  /**
   No lost exit: whenever wait_lock is free, no process is asleep in wait() while it
   has a zombie child.
   */
  lemma NoLostExit(states: seq<State>, turns: seq<Turn>, n: nat, q: nat, z: nat)
    requires Interleaving(states, turns) && n < |states| && q < NPROC && z < NPROC && WaitLock !in states[n].owner
    ensures |states[n].procs| == NPROC
    ensures states[n].procs[z].state == ZOMBIE && states[n].procs[z].parent == Some(q) ==> !AsleepInWait(states[n], q)
  {
    RunKeepsInv(states, turns, n);
    assert Safe(states[n], q, z);
  }

  /**
   No lost wakeup: when a wakeup on a channel is about to return, no process is asleep
   on that channel or past the point in sleep() where it would miss the wakeup.
   */
  lemma NoLostWakeup(states: seq<State>, turns: seq<Turn>, n: nat, c: nat, q: nat)
    requires Interleaving(states, turns) && n < |states| && c < NCPU && q < NPROC && Shape(states[n])
    requires var pc := states[n].cpus[c].pc; pc.Wake? && pc.w == WakeNext && pc.i >= NPROC
    ensures Awake(states[n], q, states[n].cpus[c].pc.chan)
  {
    RunKeepsInv(states, turns, n);
    assert WakeFits(states[n], states[n].cpus[c]);
  }

  /**
   Every live process but init has a parent, which is neither free nor being created
   nor a zombie, and so some process is left to collect it.
   */
  lemma ParentIsAlive(states: seq<State>, turns: seq<Turn>, n: nat, p: nat)
    requires Interleaving(states, turns) && n < |states| && p < NPROC
    ensures |states[n].procs| == NPROC
    ensures states[n].procs[p].state in {RUNNABLE, RUNNING, SLEEPING, ZOMBIE} && p != states[n].init ==>
      states[n].procs[p].parent.Some? && states[n].procs[p].parent.value != p &&
      Active(states[n], states[n].procs[p].parent.value)
  {
    RunKeepsInv(states, turns, n);
    assert InFamily(states[n], p);
  }

  /**
   Scheduler exclusivity: no two CPUs have the same process, and one whose state has
   left RUNNING while it is still some CPU's is locked by that CPU.
   */
  lemma SchedulerExclusivity(states: seq<State>, turns: seq<Turn>, n: nat, c: nat, p: nat)
    requires Interleaving(states, turns) && n < |states| && c < NCPU && Shape(states[n])
    requires states[n].cpus[c].proc == Some(p)
    ensures p < NPROC && forall d :: 0 <= d < NCPU && states[n].cpus[d].proc == Some(p) ==> d == c
    ensures states[n].procs[p].state != RUNNING ==> Holding(states[n], c, ProcLock(p))
  {
    var s := states[n];
    RunKeepsInv(states, turns, n);
    assert Placed(s.cpus[c]) && FitsIn(s.cpus[c], s.procs);
    forall d | 0 <= d < NCPU && s.cpus[d].proc == Some(p) ensures d == c {
      assert Placed(s.cpus[d]);
      if d != c { SubjectsApart(s, c, d); }
    }
    if s.procs[p].state != RUNNING {
      FirmSubject(s.cpus[c], s.procs[p].state);
    }
  }

  /** The panics of acquire, release, pop_off and sched are unreachable, and so is running on after exit. */
  lemma NoPanic(states: seq<State>, turns: seq<Turn>, n: nat, c: nat, a: Action)
    requires Interleaving(states, turns) && n < |states| && Shape(states[n]) && c < NCPU
    requires Allowed(states[n], states[n].cpus[c], a)
    ensures !Panics(states[n], c, a) && states[n].cpus[c].pc != Resumed(AfterExit)
  {
    var s := states[n];
    RunKeepsInv(states, turns, n);
    InvNoPanic(s, c, a);
  }

  lemma InvNoPanic(s: State, c: nat, a: Action)
    requires Inv(s) && c < NCPU && Allowed(s, s.cpus[c], a)
    ensures !Panics(s, c, a) && s.cpus[c].pc != Resumed(AfterExit)
  {
    assert Placed(s.cpus[c]) && FitsIn(s.cpus[c], s.procs);
    match a
    case Acquire(_, _) => LockNoPanic(s, c, a);
    case Release(_, _) => LockNoPanic(s, c, a);
    case SwitchOut => SwitchNoPanic(s, c, a);
    case _ =>
  }

  lemma LockNoPanic(s: State, c: nat, a: Action)
    requires Core(s) && c < NCPU && Allowed(s, s.cpus[c], a) && (a.Acquire? || a.Release?)
    ensures !Panics(s, c, a)
  {
    assert Placed(s.cpus[c]);
    LineLocks(s, s.cpus[c], a, AfterExit, true);
    assert Holds(s.cpus[c], a.lock) <==> Holding(s, c, a.lock);
  }

  lemma SwitchNoPanic(s: State, c: nat, a: Action)
    requires Core(s) && c < NCPU && Allowed(s, s.cpus[c], a) && a == SwitchOut
    ensures !Panics(s, c, a)
  {
    var cpu := s.cpus[c];
    assert Placed(cpu) && FitsIn(cpu, s.procs);
    LineSwitchesOut(s, cpu, a);
    assert Holds(cpu, ProcLock(cpu.proc.value)) <==> Holding(s, c, ProcLock(cpu.proc.value));
  }

  lemma LineSwitchesOut(s: State, cpu: Cpu, a: Action)
    requires |s.procs| == NPROC && Placed(cpu) && Allowed(s, cpu, a) && a == SwitchOut
    ensures cpu.pc.AtSched? && cpu.proc.Some?
  {
  }

  // ----- spinlocks do not deadlock -----

  // Where a lock stands in the order they are taken in.
  function Rank(lock: Lock): nat {
    match lock
    case ProcLock(_) => 1
    case Inner(_) => 2
    case _ => 0
  }

  // Every acquire goes up.
  lemma LineOrder(s: State, cpu: Cpu, a: Action, l: Lock)
    requires |s.procs| == NPROC && Placed(cpu) && Allowed(s, cpu, a) && a.Acquire? && Holds(cpu, l)
    ensures Rank(l) < Rank(a.lock)
  {
    LineLocks(s, cpu, a, AfterExit, true);
  }

  // What each CPU is about to do, for those that have made up their minds.
  ghost predicate Intents(s: State, want: seq<Option<Action>>) {
    Shape(s) && |want| == NCPU && forall c :: 0 <= c < NCPU && want[c].Some? ==> Allowed(s, s.cpus[c], want[c].value)
  }

  // CPU `c` spins for a lock.
  predicate Spins(s: State, want: seq<Option<Action>>, c: nat) {
    c < |want| && want[c].Some? && Blocked(s, want[c].value)
  }

  predicate SpinsFor(s: State, want: seq<Option<Action>>, c: nat, d: nat) {
    Spins(s, want, c) && s.owner[want[c].value.lock] == d
  }

  // Each CPU of the path spins for a lock of the next, and the last does not spin.
  ghost predicate WaitPath(s: State, want: seq<Option<Action>>, path: seq<nat>) {
    && |path| > 0 && (forall i :: 0 <= i < |path| ==> path[i] < NCPU) && !Spins(s, want, path[|path| - 1])
    && (forall i, j :: 0 <= i < |path| && j == i + 1 && j < |path| ==> SpinsFor(s, want, path[i], path[j]))
  }

  ghost predicate Ends(s: State, want: seq<Option<Action>>, c: nat, most: nat) {
    exists path :: WaitPath(s, want, path) && path[0] == c && |path| <= most
  }

  lemma {:induction false} PathEnds(s: State, want: seq<Option<Action>>, c: nat, r: nat)
    requires Inv(s) && Intents(s, want) && c < NCPU && r <= 3 && (Spins(s, want, c) ==> Rank(want[c].value.lock) >= r)
    ensures Ends(s, want, c, 4 - r)
    decreases 3 - r
  {
    if !Spins(s, want, c) {
      assert WaitPath(s, want, [c]);
    } else {
      var lock := want[c].value.lock;
      var d := s.owner[lock];
      assert Holding(s, d, lock) && Placed(s.cpus[d]);
      if Spins(s, want, d) { LineOrder(s, s.cpus[d], want[d].value, lock); }
      PathEnds(s, want, d, Rank(lock) + 1);
      var path :| WaitPath(s, want, path) && path[0] == d && |path| <= 3 - Rank(lock);
      PathGrows(s, want, c, path);
    }
  }

  lemma PathGrows(s: State, want: seq<Option<Action>>, c: nat, path: seq<nat>)
    requires WaitPath(s, want, path) && c < NCPU && SpinsFor(s, want, c, path[0])
    ensures WaitPath(s, want, [c] + path)
  {
    var longer := [c] + path;
    forall i, j | 0 <= i < |longer| && j == i + 1 && j < |longer| ensures SpinsFor(s, want, longer[i], longer[j]) {
      if i > 0 { assert SpinsFor(s, want, path[i - 1], path[j - 1]); }
    }
  }

  /**
   No deadlock: whatever each CPU is about to do, a CPU spinning for a lock waits,
   through at most two others, for one that is not spinning.
   */
  lemma NoDeadlock(states: seq<State>, turns: seq<Turn>, n: nat, want: seq<Option<Action>>, c: nat)
    requires Interleaving(states, turns) && n < |states| && Intents(states[n], want) && c < NCPU
    ensures exists path :: WaitPath(states[n], want, path) && path[0] == c && |path| <= 4
  {
    RunKeepsInv(states, turns, n);
    PathEnds(states[n], want, c, 0);
  }
}
