/**
 Parents: who a process under creation belongs to, what exit and wait know about
 the children while they hold wait_lock, and the family invariant itself.
 */
module ProcParents {
  import opened Common
  import opened ProcMachine
  import opened ProcInvariant

  // ----- processes under creation -----

  lemma LineCreates(s: State, cpu: Cpu, a: Action, k: Context, on: bool)
    requires |s.procs| == NPROC && Placed(cpu) && Allowed(s, cpu, a) && (a.Move? || a.SetProc? || a.SwitchOut?)
    ensures var cr := Creates(NewCpu(cpu, a, k, on).pc); cr == None || cr == Creates(cpu.pc)
  {
  }

  lemma LockCreates(s: State, cpu: Cpu, a: Action, k: Context, on: bool)
    requires |s.procs| == NPROC && Placed(cpu) && Allowed(s, cpu, a) && (a.Acquire? || a.Release?)
    ensures var cr := Creates(NewCpu(cpu, a, k, on).pc); cr == None || cr == Creates(cpu.pc)
  {
  }

  // The writes that take a creation further, and the one that begins it.
  predicate Advances(cpu: Cpu, a: Action, procs: seq<Proc>)
    requires a.Put?
  {
    || (Base(a.pc) == Base(cpu.pc) && !cpu.pc.Fork?)
    || (a.w == NewState(USED) && a.p < |procs| && procs[a.p].state == UNUSED && a.pc == Alloc(AllocUsed, a.p))
    || (a.w == NewContext && cpu.pc == Alloc(AllocUsed, a.p) && a.pc == Fork(ForkCopied, a.p))
    || (cpu.proc.Some? && a.w == NewParent(cpu.proc.value) && cpu.pc == Fork(ForkLink, a.p) &&
        a.pc == Fork(ForkLinked, a.p))
  }

  lemma PutCreates(s: State, cpu: Cpu, a: Action)
    requires |s.procs| == NPROC && Placed(cpu) && Allowed(s, cpu, a) && a.Put?
    ensures Creates(a.pc) == None || Advances(cpu, a, s.procs)
  {
  }

  // swtch loads a context, and saves one.
  lemma LineSwitches(s: State, cpu: Cpu, a: Action)
    requires |s.procs| == NPROC && Placed(cpu) && Allowed(s, cpu, a)
    ensures a.SwitchIn? ==> cpu.proc.Some? && cpu.proc.value < NPROC && cpu.pc.Sched? && cpu.pc.s == SchedSwitch
    ensures a.SwitchOut? ==> cpu.proc.Some? && cpu.proc.value < NPROC && cpu.pc.AtSched?
    ensures a.SetProc? ==> cpu.pc.Sched?
  {
  }

  // The lines that end a creation are the only ones that change the new process's state.
  lemma LineKeepsUsed(s: State, cpu: Cpu, a: Action, k: Context, on: bool)
    requires |s.procs| == NPROC && Placed(cpu) && Allowed(s, cpu, a) && FitsIn(cpu, s.procs) && a.Put?
    requires Creates(cpu.pc).Some? && Creates(a.pc) == Creates(cpu.pc) && s.procs[Creates(cpu.pc).value].state == USED
    ensures Creates(cpu.pc) == Some(a.p) ==> !a.w.NewState? && !a.w.Cleared?
  {
  }

  // The lines that load, save or write a context.
  lemma ContextChange(s: State, c: nat, a: Action, on: bool, p: nat)
    requires Deed(s, c, a) && p < NPROC
    ensures var (cpu, now, was) := (s.cpus[c], Apply(s, c, a, on).procs[p].context, s.procs[p].context);
      || (now == was && (a.SwitchIn? || a.SwitchOut? ==> cpu.proc != Some(p)))
      || (a.Put? && now == Forkret && Creates(cpu.pc) == Some(p))
      || (a.SwitchIn? && cpu.proc == Some(p) && now == Loaded && cpu.pc.Sched? && cpu.pc.s == SchedSwitch)
      || (a.SwitchOut? && cpu.proc == Some(p) && cpu.pc == AtSched(now))
  {
  }

  // What a line's own CPU is creating afterwards is what it was creating, or just took.
  lemma LineUsed(s: State, cpu: Cpu, a: Action, k: Context, on: bool)
    requires |s.procs| == NPROC && Placed(cpu) && Allowed(s, cpu, a) && FitsIn(cpu, s.procs) && a.Put?
    requires Creates(cpu.pc).Some? ==> Makes(s.procs, cpu.proc, Creates(cpu.pc).value)
    ensures Creates(a.pc).Some? ==> Makes(NewProcs(s.procs, cpu, a), cpu.proc, Creates(a.pc).value)
  {
    PutCreates(s, cpu, a);
    if Creates(cpu.pc).Some? && Creates(a.pc) == Creates(cpu.pc) {
      LineKeepsUsed(s, cpu, a, k, on);
      StillMakes(s.procs, cpu, a, Creates(cpu.pc).value);
    }
  }

  lemma StillMakes(procs: seq<Proc>, cpu: Cpu, a: Action, np: nat)
    requires Makes(procs, cpu.proc, np) && a.Put? && (a.p == np ==> !a.w.NewState? && !a.w.Cleared?)
    ensures Makes(NewProcs(procs, cpu, a), cpu.proc, np)
  {
  }

  lemma OwnUsed(s: State, c: nat, a: Action, on: bool)
    requires Core(s) && MayStep(s, c, a)
    ensures var s' := Apply(s, c, a, on);
      Creates(s'.cpus[c].pc).Some? ==> Makes(s'.procs, s'.cpus[c].proc, Creates(s'.cpus[c].pc).value)
  {
    var cpu, k := s.cpus[c], SavedContext(s, s.cpus[c]);
    assert FitsIn(cpu, s.procs) && Loads(cpu, s.procs);
    match a
    case Put(_, _, _) => LineUsed(s, cpu, a, k, on);
    case Acquire(_, _) => LockCreates(s, cpu, a, k, on);
    case Release(_, _) => LockCreates(s, cpu, a, k, on);
    case SwitchIn => LineSwitches(s, cpu, a);
    case SwitchOut => LineSwitches(s, cpu, a); LineCreates(s, cpu, a, k, on);
    case _ => LineCreates(s, cpu, a, k, on); LineSwitches(s, cpu, a);
  }

  lemma OtherUsed(s: State, c: nat, a: Action, on: bool, d: nat)
    requires Core(s) && Deed(s, c, a) && d < NCPU && d != c && Creates(s.cpus[d].pc).Some?
    ensures Makes(Apply(s, c, a, on).procs, s.cpus[d].proc, Creates(s.cpus[d].pc).value)
  {
    TheirsStay(s, c, a, on, d, Creates(s.cpus[d].pc).value);
    StateChange(s, c, a, on, Creates(s.cpus[d].pc).value);
  }

  lemma SavedUsed(s: State, c: nat, a: Action, on: bool, p: nat)
    requires Core(s) && Deed(s, c, a) && p < NPROC && Saved(Apply(s, c, a, on).procs[p].context).Some?
    ensures var s' := Apply(s, c, a, on); Makes(s'.procs, Some(p), Saved(s'.procs[p].context).value)
  {
    ContextChange(s, c, a, on, p);
    if Apply(s, c, a, on).procs[p].context == s.procs[p].context {
      SavedStays(s, c, a, on, p);
      StateChange(s, c, a, on, Saved(s.procs[p].context).value);
    }
  }

  lemma UsedKept(s: State, c: nat, a: Action, on: bool)
    requires Core(s) && MayStep(s, c, a) && Deed(s, c, a)
    ensures Shape(Apply(s, c, a, on)) && UsedInv(Apply(s, c, a, on))
  {
    var s' := Apply(s, c, a, on);
    OwnUsed(s, c, a, on);
    forall d | 0 <= d < NCPU && d != c && Creates(s'.cpus[d].pc).Some?
      ensures Makes(s'.procs, s'.cpus[d].proc, Creates(s'.cpus[d].pc).value) {
      OtherUsed(s, c, a, on, d);
    }
    forall p | 0 <= p < NPROC && Saved(s'.procs[p].context).Some?
      ensures Makes(s'.procs, Some(p), Saved(s'.procs[p].context).value) {
      SavedUsed(s, c, a, on, p);
    }
  }

  // ----- loaded contexts -----

  // Only swtch leaves or enters a scheduler with the same subject.
  lemma LineLoads(s: State, cpu: Cpu, a: Action, k: Context, on: bool)
    requires |s.procs| == NPROC && Placed(cpu) && Allowed(s, cpu, a) && Subject(NewCpu(cpu, a, k, on)).Some?
    requires !a.SwitchIn? && !a.SwitchOut?
    ensures NewCpu(cpu, a, k, on).pc.Sched? <==> Subject(cpu) == None || cpu.pc.Sched?
  {
    match a
    case Put(_, _, _) => PutLoads(s, cpu, a, k, on);
    case Acquire(_, _) => LockLoads(s, cpu, a, k, on);
    case Release(_, _) => LockLoads(s, cpu, a, k, on);
    case _ => MoveLoads(s, cpu, a, k, on);
  }

  lemma PutLoads(s: State, cpu: Cpu, a: Action, k: Context, on: bool)
    requires |s.procs| == NPROC && Placed(cpu) && Allowed(s, cpu, a) && Subject(NewCpu(cpu, a, k, on)).Some?
    requires a.Put?
    ensures NewCpu(cpu, a, k, on).pc.Sched? <==> Subject(cpu) == None || cpu.pc.Sched?
  {
  }

  lemma LockLoads(s: State, cpu: Cpu, a: Action, k: Context, on: bool)
    requires |s.procs| == NPROC && Placed(cpu) && Allowed(s, cpu, a) && Subject(NewCpu(cpu, a, k, on)).Some?
    requires a.Acquire? || a.Release?
    ensures NewCpu(cpu, a, k, on).pc.Sched? <==> Subject(cpu) == None || cpu.pc.Sched?
  {
  }

  lemma MoveLoads(s: State, cpu: Cpu, a: Action, k: Context, on: bool)
    requires |s.procs| == NPROC && Placed(cpu) && Allowed(s, cpu, a) && Subject(NewCpu(cpu, a, k, on)).Some?
    requires a.Move? || a.SetProc?
    ensures NewCpu(cpu, a, k, on).pc.Sched? <==> Subject(cpu) == None || cpu.pc.Sched?
  {
  }

  // A runnable process whose lock a scheduler holds is not loaded.
  lemma ChosenIsSaved(s: State, c: nat, p: nat)
    requires Core(s) && c < NCPU && p < NPROC && Holds(s.cpus[c], ProcLock(p)) && Subject(s.cpus[c]) == None
    requires s.procs[p].state != RUNNING
    ensures s.procs[p].context != Loaded
  {
    assert Holding(s, c, ProcLock(p)) && LoadedBy(s, p);
  }

  lemma OwnLoads(s: State, c: nat, a: Action, on: bool)
    requires Core(s) && MayStep(s, c, a) && Deed(s, c, a)
    ensures Loads(Apply(s, c, a, on).cpus[c], Apply(s, c, a, on).procs)
  {
    var cpu, s' := s.cpus[c], Apply(s, c, a, on);
    assert Loads(cpu, s.procs) && FitsIn(cpu, s.procs) && Placed(cpu);
    OwnSubject(s, c, a, on);
    if Subject(s'.cpus[c]).Some? {
      if !a.SwitchIn? && !a.SwitchOut? { LineLoads(s, cpu, a, SavedContext(s, cpu), on); }
      var x := Subject(s'.cpus[c]).value;
      ContextChange(s, c, a, on, x);
      if Subject(cpu) == None {
        LineMarks(s, cpu, a);
        ChosenIsSaved(s, c, x);
      }
    }
  }

  lemma OtherLoads(s: State, c: nat, a: Action, on: bool, d: nat)
    requires Core(s) && Deed(s, c, a) && d < NCPU && d != c
    ensures Loads(s.cpus[d], Apply(s, c, a, on).procs)
  {
    assert Loads(s.cpus[d], s.procs) && FitsIn(s.cpus[d], s.procs);
    if Subject(s.cpus[d]).Some? {
      SubjectsApart(s, d, c);
      ContextChange(s, c, a, on, Subject(s.cpus[d]).value);
      assert Placed(s.cpus[c]);
    }
  }

  lemma OwnerStays(s: State, c: nat, a: Action, l: Lock)
    requires Core(s) && MayStep(s, c, a) && l in s.owner && s.owner[l] != c
    ensures var owner := NewOwner(s.owner, c, a); l in owner && owner[l] == s.owner[l]
  {
    LineLocks(s, s.cpus[c], a, SavedContext(s, s.cpus[c]), true);
    assert Holds(s.cpus[c], l) <==> Holding(s, c, l);
  }

  lemma LoadedKept(s: State, c: nat, a: Action, on: bool)
    requires Core(s) && MayStep(s, c, a) && Deed(s, c, a)
    ensures Shape(Apply(s, c, a, on)) && LoadedInv(Apply(s, c, a, on))
  {
    var s' := Apply(s, c, a, on);
    forall d | 0 <= d < NCPU ensures Loads(s'.cpus[d], s'.procs) {
      if d == c { OwnLoads(s, c, a, on); } else { OtherLoads(s, c, a, on, d); }
    }
    forall p | 0 <= p < NPROC ensures LoadedBy(s', p) {
      LoadedByKept(s, c, a, on, p);
    }
  }

  lemma OwnLoadedBy(s: State, c: nat, a: Action, on: bool, p: nat)
    requires Core(s) && MayStep(s, c, a) && Deed(s, c, a) && p < NPROC && Subject(s.cpus[c]) == Some(p)
    requires Apply(s, c, a, on).procs[p].context == Loaded && Apply(s, c, a, on).procs[p].state != RUNNING
    ensures Shape(Apply(s, c, a, on)) && LoadedBy(Apply(s, c, a, on), p)
  {
    var s' := Apply(s, c, a, on);
    assert FitsIn(s.cpus[c], s.procs) && Loads(s.cpus[c], s.procs);
    OwnSubject(s, c, a, on);
    LineSwitches(s, s.cpus[c], a);
    ContextChange(s, c, a, on, p);
    LocksKept(s, c, a, on);
    LinePlaced(s, s.cpus[c], a, SavedContext(s, s.cpus[c]), on);
    FirmSubject(s'.cpus[c], s'.procs[p].state);
    assert Holding(s', c, ProcLock(p));
  }

  lemma LoadedByKept(s: State, c: nat, a: Action, on: bool, p: nat)
    requires Core(s) && MayStep(s, c, a) && Deed(s, c, a) && p < NPROC
    ensures Shape(Apply(s, c, a, on)) && LoadedBy(Apply(s, c, a, on), p)
  {
    var s' := Apply(s, c, a, on);
    assert LoadedBy(s, p);
    ContextChange(s, c, a, on, p);
    StateChange(s, c, a, on, p);
    assert FitsIn(s.cpus[c], s.procs) && Loads(s.cpus[c], s.procs);
    if s'.procs[p].context == Loaded && s'.procs[p].state != RUNNING {
      if Subject(s.cpus[c]) == Some(p) {
        OwnLoadedBy(s, c, a, on, p);
      } else {
        OwnerStays(s, c, a, ProcLock(p));
      }
    }
  }

  // ----- what each CPU knows about parents -----

  // Fork has set np->parent.
  predicate Linked(base: Pc) {
    base.Fork? && (base.f == ForkLinked || base.f == ForkStart || base.f == ForkMark)
  }

  // What process `p`, going on at `base`, knows about the process it is creating.
  ghost predicate ChildFits(procs: seq<Proc>, p: Option<nat>, base: Pc) {
    var cr := Starts(base);
    cr.Some? && cr.value < |procs| ==>
      && procs[cr.value].parent == (if Linked(base) then p else None)
      && (base.Fork? ==> procs[cr.value].context == Forkret)
  }

  ghost predicate SavedFits(procs: seq<Proc>, p: nat)
    requires p < |procs|
  {
    procs[p].context.AfterYield? ==> ChildFits(procs, Some(p), procs[p].context.at)
  }

  // An exiting process has handed over its children below this index.
  function ExitBound(pc: Pc): nat {
    match pc
    case Exit(at, i) => if at == Reparent then i else if at == ExitRelease then 0 else NPROC
    case Wake(_, _, _, ret) => if ret.ToReparent? then ret.i + 1 else if ret.ToExit? then NPROC else 0
    case _ => 0
  }

  predicate Exits(pc: Pc) {
    pc.Exit? || (pc.Wake? && (pc.ret.ToReparent? || pc.ret.ToExit?))
  }

  ghost predicate ExitFits(s: State, cpu: Cpu) {
    && (Exits(cpu.pc) ==> cpu.proc != Some(s.init))
    && (forall z :: 0 <= z < ExitBound(cpu.pc) && z < |s.procs| && cpu.proc.Some? ==> s.procs[z].parent != cpu.proc)
  }

  // wait() has seen that no child below this index is a zombie.
  function WaitBound(pc: Pc): nat {
    match Outside(pc)
    case Wait(at, i, _) => if at == WaitScan || at == WaitCheck then i else if at == WaitSkip then i + 1
      else if at == WaitKilled || at == WaitAsked then NPROC else 0
    case Sleep(at, _, lk) => if lk == WaitLock && (at == SleepEnter || at == SleepHeld) then NPROC else 0
    case _ => 0
  }

  ghost predicate WaitFits(s: State, cpu: Cpu) {
    forall z :: 0 <= z < WaitBound(cpu.pc) && z < |s.procs| && cpu.proc.Some? && s.procs[z].parent == cpu.proc ==>
      s.procs[z].state != ZOMBIE
  }

  // ----- the family invariant -----

  predicate Active(s: State, q: nat) {
    q < |s.procs| && s.procs[q].state in {RUNNABLE, RUNNING, SLEEPING}
  }

  ghost predicate InFamily(s: State, p: nat)
    requires p < |s.procs|
  {
    var q := s.procs[p];
    && (q.state == UNUSED ==> q.parent == None)
    && (q.parent.Some? ==> q.parent.value != p && Active(s, q.parent.value))
    && (q.state !in {UNUSED, USED} && p != s.init ==> q.parent.Some?)
    && (Active(s, p) ==> !q.context.AfterExit?)
  }

  ghost predicate Family(s: State)
    requires Shape(s)
  {
    && Active(s, s.init) && s.procs[s.init].parent == None
    && (forall p :: 0 <= p < NPROC ==> InFamily(s, p) && SavedFits(s.procs, p))
    && (forall c :: 0 <= c < NCPU ==> Knows(s, s.cpus[c]))
  }

  ghost predicate Knows(s: State, cpu: Cpu) {
    ChildFits(s.procs, cpu.proc, Base(cpu.pc)) && ExitFits(s, cpu) && WaitFits(s, cpu)
  }

  // ----- parents change only under wait_lock -----

  lemma LineAdopts(s: State, cpu: Cpu, a: Action)
    requires |s.procs| == NPROC && Placed(cpu) && Allowed(s, cpu, a) && a.Put? && (a.w.NewParent? || a.w.Cleared?)
    requires ChildFits(s.procs, cpu.proc, Base(cpu.pc))
    ensures a.p < NPROC && var (was, now) := (s.procs[a.p], Written(s.procs[a.p], a.w, cpu.proc));
      now.parent != was.parent ==> Adopts(cpu, a.p, was, now.parent, s.init)
  {
  }

  lemma ParentChange(s: State, c: nat, a: Action, on: bool, x: nat)
    requires Deed(s, c, a) && x < NPROC
    ensures var (was, now) := (s.procs[x], Apply(s, c, a, on).procs[x]);
      now.parent != was.parent ==> Adopts(s.cpus[c], x, was, now.parent, s.init)
  {
  }

  // One CPU at a time holds a lock.
  lemma LockAlone(s: State, c: nat, d: nat, l: Lock)
    requires Core(s) && c < NCPU && d < NCPU && c != d && Holds(s.cpus[c], l)
    ensures !Holds(s.cpus[d], l)
  {
    assert Holding(s, c, l);
    assert Holds(s.cpus[d], l) <==> Holding(s, d, l);
  }

  lemma BoundsUnderLock(cpu: Cpu)
    requires Placed(cpu) && (ExitBound(cpu.pc) > 0 || WaitBound(cpu.pc) > 0)
    ensures Holds(cpu, WaitLock)
  {
  }

  // ----- what other CPUs know stays true -----

  // The parent and context of a process some other is creating stay as they are.
  lemma ChildStays(s: State, c: nat, a: Action, on: bool, p: nat, np: nat)
    requires Core(s) && Family(s) && Deed(s, c, a) && np < NPROC && p < NPROC && Makes(s.procs, Some(p), np)
    requires Creates(s.cpus[c].pc) != Some(np) && (s.cpus[c].proc == Some(p) ==> s.cpus[c].pc.Sched?)
    requires s.procs[np].parent in {None, Some(p)}
    ensures var now := Apply(s, c, a, on).procs[np];
      now.parent == s.procs[np].parent && now.context == s.procs[np].context
  {
    ParentChange(s, c, a, on, np);
    ContextChange(s, c, a, on, np);
    assert FitsIn(s.cpus[c], s.procs);
    assert Placed(s.cpus[c]);
  }

  lemma OtherChild(s: State, c: nat, a: Action, on: bool, d: nat)
    requires Core(s) && Family(s) && Deed(s, c, a) && d < NCPU && d != c
    ensures ChildFits(Apply(s, c, a, on).procs, s.cpus[d].proc, Base(s.cpus[d].pc))
  {
    assert Knows(s, s.cpus[d]);
    if Creates(s.cpus[d].pc).Some? {
      CreatorRuns(s.cpus[d]);
      ChildrenApart(s, d, c);
      SubjectsApart(s, d, c);
      assert Placed(s.cpus[c]) && FitsIn(s.cpus[d], s.procs);
      ChildStays(s, c, a, on, s.cpus[d].proc.value, Creates(s.cpus[d].pc).value);
    }
  }

  lemma SavedChild(s: State, c: nat, a: Action, on: bool, p: nat)
    requires Core(s) && Family(s) && Deed(s, c, a) && p < NPROC
    ensures SavedFits(Apply(s, c, a, on).procs, p)
  {
    var s' := Apply(s, c, a, on);
    var cpu := s.cpus[c];
    assert SavedFits(s.procs, p) && Knows(s, cpu) && FitsIn(cpu, s.procs) && Loads(cpu, s.procs);
    ContextChange(s, c, a, on, p);
    if s'.procs[p].context == s.procs[p].context && Saved(s.procs[p].context).Some? {
      SavedApart(s, c, p);
      assert Placed(cpu);
      ChildStays(s, c, a, on, p, Saved(s.procs[p].context).value);
    }
  }

  // Without wait_lock a step changes no parent and makes no zombie.
  lemma UnlockedStep(s: State, c: nat, a: Action, on: bool, z: nat)
    requires Deed(s, c, a) && !Holds(s.cpus[c], WaitLock) && z < NPROC
    ensures var (was, now) := (s.procs[z], Apply(s, c, a, on).procs[z]);
      now.parent == was.parent && (now.state == ZOMBIE ==> was.state == ZOMBIE)
  {
    ParentChange(s, c, a, on, z);
  }

  lemma BoundsFrame(s: State, s': State, cpu: Cpu)
    requires |s'.procs| == |s.procs| && s'.init == s.init && ExitFits(s, cpu) && WaitFits(s, cpu)
    requires forall z :: 0 <= z < |s.procs| ==> s'.procs[z].parent == s.procs[z].parent
    requires forall z :: 0 <= z < |s.procs| && s'.procs[z].state == ZOMBIE ==> s.procs[z].state == ZOMBIE
    ensures ExitFits(s', cpu) && WaitFits(s', cpu)
  {
  }

  lemma OtherBounds(s: State, c: nat, a: Action, on: bool, d: nat)
    requires Core(s) && Family(s) && Deed(s, c, a) && d < NCPU && d != c
    ensures ExitFits(Apply(s, c, a, on), s.cpus[d]) && WaitFits(Apply(s, c, a, on), s.cpus[d])
  {
    var s' := Apply(s, c, a, on);
    assert Knows(s, s.cpus[d]);
    if ExitBound(s.cpus[d].pc) > 0 || WaitBound(s.cpus[d].pc) > 0 {
      BoundsUnderLock(s.cpus[d]);
      LockAlone(s, d, c, WaitLock);
      forall z | 0 <= z < NPROC
        ensures s'.procs[z].parent == s.procs[z].parent
        ensures s'.procs[z].state == ZOMBIE ==> s.procs[z].state == ZOMBIE
      {
        UnlockedStep(s, c, a, on, z);
      }
      BoundsFrame(s, s', s.cpus[d]);
    }
  }

  // ----- what a line's own CPU knows afterwards -----

  lemma MoveChild(s: State, cpu: Cpu, a: Action, k: Context, on: bool)
    requires |s.procs| == NPROC && Placed(cpu) && Allowed(s, cpu, a) && FitsIn(cpu, s.procs)
    requires (a.Move? || a.SetProc? || a.SwitchOut?)
    requires ChildFits(s.procs, cpu.proc, Base(cpu.pc))
    requires (Creates(cpu.pc).Some? ==> s.procs[Creates(cpu.pc).value].state == USED)
    ensures var cpu' := NewCpu(cpu, a, k, on); ChildFits(NewProcs(s.procs, cpu, a), cpu'.proc, Base(cpu'.pc))
  {
    LineCreates(s, cpu, a, k, on);
  }

  lemma LockChild(s: State, cpu: Cpu, a: Action, k: Context, on: bool)
    requires |s.procs| == NPROC && Placed(cpu) && Allowed(s, cpu, a) && FitsIn(cpu, s.procs)
    requires (a.Acquire? || a.Release?)
    requires ChildFits(s.procs, cpu.proc, Base(cpu.pc))
    requires (Creates(cpu.pc).Some? ==> s.procs[Creates(cpu.pc).value].state == USED)
    ensures var cpu' := NewCpu(cpu, a, k, on); ChildFits(NewProcs(s.procs, cpu, a), cpu'.proc, Base(cpu'.pc))
  {
    LockCreates(s, cpu, a, k, on);
  }

  lemma PutChild(s: State, c: nat, a: Action, on: bool)
    requires Deed(s, c, a) && a.Put? && InFamily(s, a.p) && (Creates(a.pc) == None || Advances(s.cpus[c], a, s.procs))
    requires ChildFits(s.procs, s.cpus[c].proc, Base(s.cpus[c].pc))
    requires Creates(s.cpus[c].pc).Some? ==> Makes(s.procs, s.cpus[c].proc, Creates(s.cpus[c].pc).value)
    ensures ChildFits(Apply(s, c, a, on).procs, s.cpus[c].proc, Base(a.pc))
  {
    if Creates(a.pc).Some? && Creates(a.pc).value < NPROC {
      ParentChange(s, c, a, on, Creates(a.pc).value);
      ContextChange(s, c, a, on, Creates(a.pc).value);
    }
  }

  lemma MoveExit(s: State, cpu: Cpu, a: Action, k: Context, on: bool, z: nat)
    requires |s.procs| == NPROC && Placed(cpu) && Allowed(s, cpu, a) && ExitFits(s, cpu) && z < NPROC && a.Move?
    ensures Exits(a.pc) ==> cpu.proc != Some(s.init)
    ensures z < ExitBound(a.pc) && cpu.proc.Some? ==> s.procs[z].parent != cpu.proc
  {
  }

  lemma AcquireExit(s: State, cpu: Cpu, a: Action, k: Context, on: bool)
    requires |s.procs| == NPROC && Placed(cpu) && Allowed(s, cpu, a) && a.Acquire?
    ensures var cpu' := NewCpu(cpu, a, k, on);
      && (Exits(cpu'.pc) ==> cpu'.proc == cpu.proc && (Exits(cpu.pc) || cpu.proc != Some(s.init)))
      && ExitBound(cpu'.pc) <= ExitBound(cpu.pc) && (ExitBound(cpu'.pc) > 0 ==> Exits(cpu'.pc))
  {
  }

  lemma ReleaseExit(s: State, cpu: Cpu, a: Action, k: Context, on: bool)
    requires |s.procs| == NPROC && Placed(cpu) && Allowed(s, cpu, a) && a.Release?
    ensures var cpu' := NewCpu(cpu, a, k, on);
      && (Exits(cpu'.pc) ==> cpu'.proc == cpu.proc && (Exits(cpu.pc) || cpu.proc != Some(s.init)))
      && ExitBound(cpu'.pc) <= ExitBound(cpu.pc) && (ExitBound(cpu'.pc) > 0 ==> Exits(cpu'.pc))
  {
  }

  lemma SwitchExit(s: State, cpu: Cpu, a: Action, k: Context, on: bool)
    requires |s.procs| == NPROC && Placed(cpu) && Allowed(s, cpu, a) && (a.SetProc? || a.SwitchIn? || a.SwitchOut?)
    ensures var cpu' := NewCpu(cpu, a, k, on);
      && (Exits(cpu'.pc) ==> cpu'.proc == cpu.proc && (Exits(cpu.pc) || cpu.proc != Some(s.init)))
      && ExitBound(cpu'.pc) <= ExitBound(cpu.pc) && (ExitBound(cpu'.pc) > 0 ==> Exits(cpu'.pc))
  {
  }

  lemma LockExit(s: State, cpu: Cpu, a: Action, k: Context, on: bool)
    requires |s.procs| == NPROC && Placed(cpu) && Allowed(s, cpu, a) && !a.Put? && !a.Move?
    ensures var cpu' := NewCpu(cpu, a, k, on);
      && (Exits(cpu'.pc) ==> cpu'.proc == cpu.proc && (Exits(cpu.pc) || cpu.proc != Some(s.init)))
      && ExitBound(cpu'.pc) <= ExitBound(cpu.pc) && (ExitBound(cpu'.pc) > 0 ==> Exits(cpu'.pc))
  {
    match a
    case Acquire(_, _) => AcquireExit(s, cpu, a, k, on);
    case Release(_, _) => ReleaseExit(s, cpu, a, k, on);
    case _ => SwitchExit(s, cpu, a, k, on);
  }

  lemma OwnExit(s: State, cpu: Cpu, a: Action, k: Context, on: bool, z: nat)
    requires |s.procs| == NPROC && Placed(cpu) && Allowed(s, cpu, a) && ExitFits(s, cpu) && z < NPROC && !a.Put?
    ensures var cpu' := NewCpu(cpu, a, k, on);
      && (Exits(cpu'.pc) ==> cpu'.proc != Some(s.init))
      && (z < ExitBound(cpu'.pc) && cpu'.proc.Some? ==> s.procs[z].parent != cpu'.proc)
  {
    if a.Move? { MoveExit(s, cpu, a, k, on, z); } else { LockExit(s, cpu, a, k, on); }
  }

  lemma OwnExitPut(s: State, cpu: Cpu, a: Action, z: nat)
    requires |s.procs| == NPROC && Placed(cpu) && Allowed(s, cpu, a) && ExitFits(s, cpu) && z < NPROC && a.Put?
    ensures var procs' := NewProcs(s.procs, cpu, a);
      && (Exits(a.pc) ==> cpu.proc != Some(s.init))
      && (z < ExitBound(a.pc) && cpu.proc.Some? ==> procs'[z].parent != cpu.proc)
  {
  }

  // A line that takes or releases a lock, or switches, tells wait() nothing new but at the end of its scan.
  lemma AcquireWait(s: State, cpu: Cpu, a: Action, k: Context, on: bool)
    requires |s.procs| == NPROC && Placed(cpu) && Allowed(s, cpu, a) && a.Acquire?
    ensures var cpu' := NewCpu(cpu, a, k, on);
      WaitBound(cpu'.pc) > 0 ==> cpu'.proc == cpu.proc && WaitBound(cpu'.pc) <= WaitBound(cpu.pc)
  {
  }

  lemma ReleaseWait(s: State, cpu: Cpu, a: Action, k: Context, on: bool)
    requires |s.procs| == NPROC && Placed(cpu) && Allowed(s, cpu, a) && a.Release?
    ensures var cpu' := NewCpu(cpu, a, k, on);
      WaitBound(cpu'.pc) > 0 ==> cpu'.proc == cpu.proc && WaitBound(cpu'.pc) <= WaitBound(cpu.pc)
  {
  }

  lemma SwitchWait(s: State, cpu: Cpu, a: Action, k: Context, on: bool)
    requires |s.procs| == NPROC && Placed(cpu) && Allowed(s, cpu, a) && (a.SetProc? || a.SwitchIn? || a.SwitchOut?)
    ensures var cpu' := NewCpu(cpu, a, k, on);
      WaitBound(cpu'.pc) > 0 ==> cpu'.proc == cpu.proc && WaitBound(cpu'.pc) <= WaitBound(cpu.pc)
  {
  }

  lemma LockWait(s: State, cpu: Cpu, a: Action, k: Context, on: bool)
    requires |s.procs| == NPROC && Placed(cpu) && Allowed(s, cpu, a) && !a.Put? && !a.Move?
    ensures var cpu' := NewCpu(cpu, a, k, on);
      WaitBound(cpu'.pc) > 0 ==> cpu'.proc == cpu.proc && WaitBound(cpu'.pc) <= WaitBound(cpu.pc)
  {
    match a
    case Acquire(_, _) => AcquireWait(s, cpu, a, k, on);
    case Release(_, _) => ReleaseWait(s, cpu, a, k, on);
    case _ => SwitchWait(s, cpu, a, k, on);
  }

  lemma MoveWait(s: State, cpu: Cpu, a: Action, k: Context, on: bool, z: nat)
    requires |s.procs| == NPROC && Placed(cpu) && Allowed(s, cpu, a) && WaitFits(s, cpu) && z < NPROC && a.Move?
    ensures z < WaitBound(a.pc) && cpu.proc.Some? && s.procs[z].parent == cpu.proc ==> s.procs[z].state != ZOMBIE
  {
  }

  lemma OwnWait(s: State, cpu: Cpu, a: Action, k: Context, on: bool, z: nat)
    requires |s.procs| == NPROC && Placed(cpu) && Allowed(s, cpu, a) && WaitFits(s, cpu) && z < NPROC && !a.Put?
    ensures var cpu' := NewCpu(cpu, a, k, on);
      z < WaitBound(cpu'.pc) && cpu'.proc.Some? && s.procs[z].parent == cpu'.proc ==> s.procs[z].state != ZOMBIE
  {
    if a.Move? { MoveWait(s, cpu, a, k, on, z); } else { LockWait(s, cpu, a, k, on); }
  }

  lemma OwnWaitPut(s: State, cpu: Cpu, a: Action)
    requires |s.procs| == NPROC && Placed(cpu) && Allowed(s, cpu, a) && a.Put?
    ensures WaitBound(a.pc) == 0
  {
  }

  // A process switched in knows what it knew when it was switched out.
  lemma LoadedChild(s: State, c: nat, a: Action, on: bool)
    requires Core(s) && Family(s) && Deed(s, c, a) && a.SwitchIn?
    ensures var s' := Apply(s, c, a, on); ChildFits(s'.procs, s'.cpus[c].proc, Base(s'.cpus[c].pc))
  {
    var cpu := s.cpus[c];
    var p := cpu.proc.value;
    assert Placed(cpu) && SavedFits(s.procs, p) && Loads(cpu, s.procs) && FitsIn(cpu, s.procs);
  }

  lemma OwnChild(s: State, c: nat, a: Action, on: bool)
    requires Core(s) && Family(s) && MayStep(s, c, a) && Deed(s, c, a)
    ensures var s' := Apply(s, c, a, on); ChildFits(s'.procs, s'.cpus[c].proc, Base(s'.cpus[c].pc))
  {
    var cpu, k := s.cpus[c], SavedContext(s, s.cpus[c]);
    assert FitsIn(cpu, s.procs) && Knows(s, cpu);
    match a
    case SwitchIn => LoadedChild(s, c, a, on);
    case Put(p, _, _) => assert InFamily(s, p); PutCreates(s, cpu, a); PutChild(s, c, a, on);
    case Acquire(_, _) => LockChild(s, cpu, a, k, on);
    case Release(_, _) => LockChild(s, cpu, a, k, on);
    case _ => MoveChild(s, cpu, a, k, on);
  }

  lemma OwnBounds(s: State, cpu: Cpu, a: Action, k: Context, on: bool)
    requires |s.procs| == NPROC && Placed(cpu) && Allowed(s, cpu, a) && ExitFits(s, cpu) && WaitFits(s, cpu)
    ensures var (s', cpu') := (s.(procs := NewProcs(s.procs, cpu, a)), NewCpu(cpu, a, k, on));
      ExitFits(s', cpu') && WaitFits(s', cpu')
  {
    var procs', cpu' := NewProcs(s.procs, cpu, a), NewCpu(cpu, a, k, on);
    if a.Put? { OwnExitPut(s, cpu, a, 0); } else { OwnExit(s, cpu, a, k, on, 0); }
    forall z | 0 <= z < NPROC
      ensures z < ExitBound(cpu'.pc) && cpu'.proc.Some? ==> procs'[z].parent != cpu'.proc
      ensures z < WaitBound(cpu'.pc) && cpu'.proc.Some? && procs'[z].parent == cpu'.proc ==> procs'[z].state != ZOMBIE
    {
      if a.Put? {
        OwnExitPut(s, cpu, a, z);
        OwnWaitPut(s, cpu, a);
      } else {
        OwnExit(s, cpu, a, k, on, z);
        OwnWait(s, cpu, a, k, on, z);
      }
    }
  }

  lemma OwnKnows(s: State, c: nat, a: Action, on: bool)
    requires Core(s) && Family(s) && MayStep(s, c, a) && Deed(s, c, a)
    ensures Knows(Apply(s, c, a, on), Apply(s, c, a, on).cpus[c])
  {
    assert Knows(s, s.cpus[c]);
    OwnChild(s, c, a, on);
    OwnBounds(s, s.cpus[c], a, SavedContext(s, s.cpus[c]), on);
  }

  // ----- the family is kept -----

  // A parent stays active: when a process turns zombie nobody names it parent.
  lemma ParentStaysActive(s: State, c: nat, a: Action, on: bool, p: nat, q: nat)
    requires Core(s) && Family(s) && Deed(s, c, a) && p < NPROC && s.procs[p].parent == Some(q)
    ensures Active(s, q) && Active(Apply(s, c, a, on), q)
  {
    assert InFamily(s, p);
    StateChange(s, c, a, on, q);
    if Apply(s, c, a, on).procs[q].state == ZOMBIE {
      MakesZombie(s, c, a, on, q);
      assert Knows(s, s.cpus[c]);
    }
  }

  lemma MakesZombie(s: State, c: nat, a: Action, on: bool, q: nat)
    requires Deed(s, c, a) && q < NPROC && s.procs[q].state != ZOMBIE && Apply(s, c, a, on).procs[q].state == ZOMBIE
    ensures s.cpus[c].proc == Some(q) && s.cpus[c].pc.Exit? && s.cpus[c].pc.e == ExitMark && Holds(s.cpus[c], WaitLock)
  {
  }

  lemma InitStays(s: State, c: nat, a: Action, on: bool)
    requires Core(s) && Family(s) && Deed(s, c, a)
    ensures Active(Apply(s, c, a, on), s.init) && Apply(s, c, a, on).procs[s.init].parent == None
  {
    StateChange(s, c, a, on, s.init);
    ParentChange(s, c, a, on, s.init);
    assert Knows(s, s.cpus[c]) && FitsIn(s.cpus[c], s.procs);
    assert Creates(s.cpus[c].pc) != Some(s.init);
  }

  lemma ParentsKept(s: State, c: nat, a: Action, on: bool, p: nat)
    requires Core(s) && Family(s) && Deed(s, c, a) && p < NPROC
    ensures var s' := Apply(s, c, a, on);
      s'.procs[p].parent.Some? ==> s'.procs[p].parent.value != p && Active(s', s'.procs[p].parent.value)
  {
    var s' := Apply(s, c, a, on);
    assert InFamily(s, p);
    if s.procs[p].parent.Some? && s'.procs[p].parent == s.procs[p].parent {
      ParentStaysActive(s, c, a, on, p, s.procs[p].parent.value);
    } else if s'.procs[p].parent.Some? {
      ParentChange(s, c, a, on, p);
      InitStays(s, c, a, on);
      assert FitsIn(s.cpus[c], s.procs);
    }
  }

  // The state of `p` before and after a step of `cpu`.
  ghost predicate Turns(cpu: Cpu, p: nat, was: Proc, now: Proc) {
    && (now.state != was.state ==> Marks(cpu, p, was.state, now.state))
    && (now.state != was.state && was.state == USED && now.state != UNUSED ==> cpu.pc == Fork(ForkMark, p))
    && (now.state == UNUSED && was.state != UNUSED ==> now.parent == None)
    && (now.context in {was.context, Forkret, Loaded}
        || (cpu.proc == Some(p) && cpu.pc == AtSched(now.context) && now.state == was.state))
  }

  lemma StepTurns(s: State, c: nat, a: Action, on: bool, p: nat)
    requires Deed(s, c, a) && p < NPROC
    ensures Turns(s.cpus[c], p, s.procs[p], Apply(s, c, a, on).procs[p])
  {
    StateChange(s, c, a, on, p);
  }

  // Live processes keep a parent, free entries have none, and nothing can be resumed after exit.
  lemma Member(cpu: Cpu, p: nat, was: Proc, now: Proc, init: nat)
    requires Turns(cpu, p, was, now) && (cpu.proc == Some(p) ==> Subject(cpu) == Some(p) && Fits(cpu.pc, was.state))
    requires now.parent != was.parent ==> Adopts(cpu, p, was, now.parent, init)
    requires was.state == UNUSED ==> was.parent == None
    requires was.state !in {UNUSED, USED} && p != init ==> was.parent.Some?
    requires was.state in {RUNNABLE, RUNNING, SLEEPING} ==> !was.context.AfterExit?
    requires Creates(cpu.pc) == Some(p) ==>
      was.state == USED && (Linked(Base(cpu.pc)) ==> was.parent.Some?) && (cpu.pc.Fork? ==> was.context == Forkret)
    requires was.state == ZOMBIE && now.parent == None && was.parent != None ==> now.state == UNUSED
    ensures now.state == UNUSED ==> now.parent == None
    ensures now.state !in {UNUSED, USED} && p != init ==> now.parent.Some?
    ensures now.state in {RUNNABLE, RUNNING, SLEEPING} ==> !now.context.AfterExit?
  {
  }

  lemma MemberKept(s: State, c: nat, a: Action, on: bool, p: nat)
    requires Core(s) && Family(s) && Deed(s, c, a) && p < NPROC
    ensures InFamily(Apply(s, c, a, on), p)
  {
    assert InFamily(s, p) && FitsIn(s.cpus[c], s.procs) && Knows(s, s.cpus[c]) && Placed(s.cpus[c]);
    ParentsKept(s, c, a, on, p);
    ParentChange(s, c, a, on, p);
    StepTurns(s, c, a, on, p);
    Member(s.cpus[c], p, s.procs[p], Apply(s, c, a, on).procs[p], s.init);
  }

  lemma FamilyKept(s: State, c: nat, a: Action, on: bool)
    requires Core(s) && Family(s) && MayStep(s, c, a) && Deed(s, c, a)
    ensures Shape(Apply(s, c, a, on)) && Family(Apply(s, c, a, on))
  {
    var s' := Apply(s, c, a, on);
    InitStays(s, c, a, on);
    forall p | 0 <= p < NPROC ensures InFamily(s', p) && SavedFits(s'.procs, p) {
      MemberKept(s, c, a, on, p);
      SavedChild(s, c, a, on, p);
    }
    forall d | 0 <= d < NCPU ensures Knows(s', s'.cpus[d]) {
      if d == c {
        OwnKnows(s, c, a, on);
      } else {
        OtherChild(s, c, a, on, d);
        OtherBounds(s, c, a, on, d);
      }
    }
  }

  lemma ContextsKept(s: State, c: nat, a: Action, on: bool)
    requires Shape(s) && PlacedInv(s) && c < NCPU
    ensures forall p :: 0 <= p < NPROC ==> GoodContext(p, Apply(s, c, a, on).procs[p].context)
  {
    var s' := Apply(s, c, a, on);
    assert Placed(s.cpus[c]);
    forall p | 0 <= p < NPROC ensures GoodContext(p, s'.procs[p].context) {
      assert GoodContext(p, s.procs[p].context);
    }
  }

  lemma PlacesKept(s: State, c: nat, a: Action, on: bool)
    requires Core(s) && Family(s) && MayStep(s, c, a)
    ensures Shape(Apply(s, c, a, on)) && PlacedInv(Apply(s, c, a, on))
  {
    var cpu := s.cpus[c];
    assert FitsIn(cpu, s.procs) && Loads(cpu, s.procs);
    LineSwitches(s, cpu, a);
    if a.SwitchIn? {
      assert InFamily(s, cpu.proc.value) && GoodContext(cpu.proc.value, s.procs[cpu.proc.value].context);
    }
    LinePlaced(s, cpu, a, SavedContext(s, cpu), on);
    ContextsKept(s, c, a, on);
  }

  // Fork's last write starts a process, exit's makes a zombie, sleep's a sleeper; only freeproc sets UNUSED.
  lemma LineStarts(s: State, cpu: Cpu, a: Action)
    requires |s.procs| == NPROC && Placed(cpu) && Allowed(s, cpu, a) && a.Put? && a.w.NewState? && a.p < NPROC
    requires cpu.proc.Some? ==> Fits(cpu.pc, s.procs[cpu.proc.value].state)
    ensures a.w.st != UNUSED
    ensures s.procs[a.p].state == USED ==> cpu.pc == Fork(ForkMark, a.p)
    ensures a.w.st == ZOMBIE ==> cpu.pc.Exit? && cpu.pc.e == ExitMark && cpu.proc == Some(a.p) && Holds(cpu, WaitLock)
    ensures a.w.st == SLEEPING ==> cpu.pc.Sleep? && cpu.pc.z == SleepMark && cpu.proc == Some(a.p)
  {
  }

  lemma LineWrites(s: State, cpu: Cpu, a: Action)
    requires |s.procs| == NPROC && Placed(cpu) && Allowed(s, cpu, a) && a.Put?
    requires (a.w.NewContext? || a.w.NewChan? || a.w.NowKilled?)
    ensures a.p < NPROC
    ensures a.w.NewContext? ==> Creates(cpu.pc) == Some(a.p)
    ensures a.w.NewChan? ==> cpu.proc == Some(a.p) && (cpu.pc.Sleep? || cpu.pc.Resumed?)
  {
  }

  lemma StepDeed(s: State, c: nat, a: Action)
    requires Core(s) && Family(s) && MayStep(s, c, a)
    ensures Deed(s, c, a)
  {
    var cpu := s.cpus[c];
    assert FitsIn(cpu, s.procs) && Knows(s, cpu) && Placed(cpu);
    match a
    case Put(_, NewState(st), _) => LineMarks(s, cpu, a); LineStarts(s, cpu, a);
    case Put(_, Cleared, _) => LineClears(s, cpu, a); LineAdopts(s, cpu, a);
    case Put(_, NewParent(_), _) => LineAdopts(s, cpu, a);
    case Put(_, _, _) => LineWrites(s, cpu, a);
    case _ => LineSwitches(s, cpu, a);
  }

  /** Every step keeps the invariant. */
  lemma StepKeepsFamily(s: State, c: nat, a: Action, on: bool)
    requires Core(s) && Family(s) && MayStep(s, c, a)
    ensures Core(Apply(s, c, a, on)) && Family(Apply(s, c, a, on))
  {
    StepDeed(s, c, a);
    PlacesKept(s, c, a, on);
    LocksKept(s, c, a, on);
    SubjectsKept(s, c, a, on);
    UsedKept(s, c, a, on);
    LoadedKept(s, c, a, on);
    FamilyKept(s, c, a, on);
  }
}
