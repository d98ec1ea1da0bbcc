/**
 A sleep lock in use, as one run from boot: init takes a sleep lock with
 acquiresleep and gives it back with releasesleep.
 */
module SleepLife {
  import opened Common
  import opened ProcMachine
  import opened SleepLock
  import Life = ProcLife

  // The scene of the process machine, with one sleep lock, and what init has done about it.
  datatype Scene = Scene(x: Life.Scene, id: nat, taken: bool, task: Task)

  function Idles(): seq<Task> { seq(NPROC - 1, _ => Idle) }
  function Nothing(): seq<set<nat>> { seq(NPROC - 1, _ => {}) }

  function Whole(y: Scene): Kernel {
    Kernel(Life.Whole(y.x), {y.id}, if y.taken then {y.id} else {}, if y.taken then map[y.id := 0] else map[],
           [y.task] + Idles(), [if y.taken then {y.id} else {}] + Nothing())
  }

  // A run that ends in `k` and passes through `mark`.
  ghost predicate Leads(ks: seq<Kernel>, moves: seq<Move>, n: nat, mark: Kernel, k: Kernel) {
    KernelRun(ks, moves) && ks[|moves|] == k && n < |ks| && ks[n] == mark
  }

  ghost predicate Found(mark: Kernel, k: Kernel) {
    exists ks, moves, n :: Leads(ks, moves, n, mark, k)
  }

  lemma Extend(mark: Kernel, k: Kernel, c: nat, act: Act, k': Kernel)
    requires Found(mark, k) && KernelStep(k, c, act, k')
    ensures Found(mark, k')
  {
    var ks, moves, n :| Leads(ks, moves, n, mark, k);
    var ks', moves' := ks + [k'], moves + [Move.Move(c, act)];
    forall i | 0 <= i < |moves'| ensures MoveAt(ks', moves', i) {
      if i < |moves| { assert MoveAt(ks, moves, i); }
    }
    assert Leads(ks', moves', n, mark, k');
  }

  lemma Mark(mark: Kernel, k: Kernel)
    requires Found(mark, k)
    ensures Found(k, k)
  {
    var ks, moves, n :| Leads(ks, moves, n, mark, k);
    assert Leads(ks, moves, |moves|, k, k);
  }

  // A line of the machine on CPU 0.
  lemma GoLine(mark: Kernel, y: Scene, a: Action, call: Call) returns (z: Scene)
    requires Found(mark, Whole(y)) && Life.Acts(y.x, 0, a) && Follows(Whole(y), y.x.c0, a, call)
    requires y.x.c0.proc == None || y.x.c0.proc == Some(0)
    ensures Found(mark, Whole(z))
    ensures z == y.(x := Life.Next(y.x, 0, a),
                    task := if y.x.c0.proc.None? then y.task else NextTask(Whole(y), y.x.c0, a, call, y.task))
  {
    z := y.(x := Life.Next(y.x, 0, a),
            task := if y.x.c0.proc.None? then y.task else NextTask(Whole(y), y.x.c0, a, call, y.task));
    Life.NextIsApply(y.x, 0, a);
    var k, k' := Whole(y), Whole(z);
    assert k.s.cpus[0] == y.x.c0;
    assert k'.task == NewTasks(k, y.x.c0, a, call);
    Extend(mark, k, 0, Line(a, true, call), k');
  }

  lemma Boots(id: nat) returns (y: Scene)
    ensures y == Scene(Life.START, id, false, Idle) && Found(Whole(y), Whole(y))
  {
    y := Scene(Life.START, id, false, Idle);
    assert Start(Whole(y));
    assert Leads([Whole(y)], [], 0, Whole(y), Whole(y));
  }

  // The scheduler chooses init.
  lemma Chooses(id: nat) returns (y: Scene, mark: Kernel)
    ensures y.x.c0 == Cpu(None, Sched(SchedChosen, 0), 1, false) && y.x.owner == map[ProcLock(0) := 0]
    ensures y.x.p0.context == Forkret && y.id == id && !y.taken && y.task == Idle && Found(mark, Whole(y))
  {
    y := Boots(id);
    mark := Whole(y);
    y := GoLine(mark, y, Acquire(ProcLock(0), Sched(SchedHeld, 0)), HoldingSleep);
    y := GoLine(mark, y, SetState(0, RUNNING, Sched(SchedChosen, 0)), HoldingSleep);
  }

  // And switches to it.
  lemma Dispatch(id: nat) returns (y: Scene, mark: Kernel)
    ensures y.x.c0 == Life.Running(0) && y.x.owner == map[] && y.id == id && !y.taken && y.task == Idle
    ensures Found(mark, Whole(y))
  {
    y, mark := Chooses(id);
    y := GoLine(mark, y, SetProc(Some(0), Sched(SchedSwitch, 0)), HoldingSleep);
    y := GoLine(mark, y, SwitchIn, HoldingSleep);
    y := GoLine(mark, y, Release(ProcLock(0), Run), HoldingSleep);
  }

  // Init has the spinlock of the sleep lock.
  predicate Inside(y: Scene) {
    y.x.c0 == Cpu(Some(0), Locked(y.id, Run), 1, false) && y.x.owner == map[Other(y.id) := 0]
  }

  lemma Enters(mark: Kernel, y: Scene, call: Call) returns (z: Scene)
    requires Found(mark, Whole(y)) && y.x.c0 == Life.Running(0) && y.x.owner == map[] && y.task == Idle
    requires call.ReleaseSleep? ==> y.taken
    ensures Found(mark, Whole(z)) && Inside(z) && z.id == y.id && z.taken == y.taken
    ensures z.task == match call case AcquireSleep => Test(y.id) case ReleaseSleep => Clear(y.id) case _ => Leave(y.id)
  {
    z := GoLine(mark, y, Acquire(Other(y.id), Locked(y.id, Run)), call);
  }

  lemma Leaves(mark: Kernel, y: Scene) returns (z: Scene)
    requires Found(mark, Whole(y)) && Inside(y) && y.task == Leave(y.id)
    ensures Found(mark, Whole(z)) && z.x.c0 == Life.Running(0) && z.x.owner == map[] && z.task == Idle
    ensures z.id == y.id && z.taken == y.taken
  {
    z := GoLine(mark, y, Release(Other(y.id), Run), HoldingSleep);
  }

  lemma FirstChanges<T>(x: T, y: T, rest: seq<T>)
    ensures ([x] + rest)[0 := y] == [y] + rest
  {
  }

  // lk->locked is 0 and becomes 1.
  lemma TakesLock(mark: Kernel, y: Scene) returns (z: Scene)
    requires Found(mark, Whole(y)) && Inside(y) && y.task == Test(y.id) && !y.taken
    ensures Found(mark, Whole(z)) && z == y.(taken := true, task := Leave(y.id))
  {
    var w := y.(task := Set(y.id));
    FirstChanges(y.task, w.task, Idles());
    z := y.(taken := true, task := Leave(y.id));
    assert Whole(y).s.cpus[0] == y.x.c0;
    assert Whole(w) == Whole(y).(task := Whole(y).task[0 := Set(y.id)]);
    Extend(mark, Whole(y), 0, FindFree(y.id), Whole(w));
    var none: set<nat> := {};
    assert none + {y.id} == {y.id};
    FirstChanges(w.task, z.task, Idles());
    FirstChanges(none, {y.id}, Nothing());
    assert Whole(z) == Acquired(Whole(w), 0, y.id);
    Extend(mark, Whole(w), 0, SetLocked(y.id), Whole(z));
  }

  lemma DropsLock(mark: Kernel, y: Scene) returns (z: Scene)
    requires Found(mark, Whole(y)) && Inside(y) && y.task == Clear(y.id) && y.taken
    ensures Found(mark, Whole(z)) && z == y.(taken := false, task := Rouse(y.id))
  {
    z := y.(taken := false, task := Rouse(y.id));
    assert Whole(y).s.cpus[0] == y.x.c0;
    var none: set<nat> := {};
    assert {y.id} - {y.id} == none;
    FirstChanges(y.task, z.task, Idles());
    FirstChanges({y.id}, none, Nothing());
    assert Whole(z) == Released(Whole(y), 0, y.id);
    Extend(mark, Whole(y), 0, ClearLocked(y.id), Whole(z));
  }

  lemma Acquires(id: nat) returns (y: Scene)
    ensures Found(Whole(y), Whole(y)) && y.x.c0 == Life.Running(0) && y.x.owner == map[] && y.task == Idle
    ensures y.id == id && y.taken
  {
    var mark;
    y, mark := Dispatch(id);
    y := Enters(mark, y, AcquireSleep);
    y := TakesLock(mark, y);
    y := Leaves(mark, y);
    Mark(mark, Whole(y));
  }

  // At `n` process `p` has the lock, and at the end no longer.
  ghost predicate TakenAndGiven(ks: seq<Kernel>, n: nat, p: nat, id: nat) {
    && n < |ks| && p < |ks[n].held| && id in ks[n].held[p] && id in ks[n].locked
    && p < |ks[|ks| - 1].held| && id !in ks[|ks| - 1].held[p] && id !in ks[|ks| - 1].locked
  }

  /** There is a run from boot in which a process acquires a sleep lock and releases it again. */
  lemma SleepLockUsed(id: nat)
    ensures exists ks, moves, n, p :: KernelRun(ks, moves) && TakenAndGiven(ks, n, p, id)
  {
    var y := Acquires(id);
    var mark := Whole(y);
    assert mark.held[0] == {id};
    var z := Enters(mark, y, ReleaseSleep);
    z := DropsLock(mark, z);
    var ks, moves, n :| Leads(ks, moves, n, mark, Whole(z));
    assert Whole(z).held[0] == {};
    assert TakenAndGiven(ks, n, 0, id);
  }
}
