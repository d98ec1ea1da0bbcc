/**
 Log space reservation: begin_op admits a call only if every outstanding call
 could still add MAXOPBLOCKS blocks.  How full the log can get is bounded, for
 calls that add at most `k` blocks each, by an account that every step of the
 protocol follows.
 */
module LogSpace {
  import opened Common
  import opened LogProtocol
  import opened LogSafety
  import opened LogRuns

  // log.lh.n; per thread the blocks its open call has added; commit or recovery in progress.
  datatype Space = Space(n: nat, ops: seq<Option<nat>>, busy: bool)

  predicate Begin(s: Space, s': Space, t: nat) {
    && t < |s.ops| && s.ops[t] == None && !s.busy
    && s.n + (Outstanding(s.ops) + 1) * MAXOPBLOCKS <= LOGSIZE
    && s' == s.(ops := s.ops[t := Some(0)])
  }

  // A log_write that appends a block to the log.
  predicate Add(l: Layout, k: nat, s: Space, s': Space, t: nat) {
    && t < |s.ops| && s.ops[t].Some? && s.ops[t].value < k && !LogWritePanics(l, s.n, Outstanding(s.ops))
    && s' == s.(n := s.n + 1, ops := s.ops[t := Some(s.ops[t].value + 1)])
  }

  predicate End(s: Space, s': Space, t: nat) {
    && t < |s.ops| && s.ops[t].Some? && !s.busy
    && var ops := s.ops[t := None];
       s' == if Outstanding(ops) > 0 then s.(ops := ops) else Space(0, ops, true)
  }

  predicate Resume(s: Space, s': Space) {
    s.busy && s' == s.(busy := false)
  }

  predicate Reset(s: Space, s': Space) {
    s' == Empty(|s.ops|)
  }

  function Empty(threads: nat): Space {
    Space(0, seq(threads, _ => None), true)
  }

  ghost predicate Next(l: Layout, k: nat, s: Space, s': Space) {
    || s' == s
    || (exists t :: Begin(s, s', t))
    || (exists t :: Add(l, k, s, s', t))
    || (exists t :: End(s, s', t))
    || Resume(s, s')
    || Reset(s, s')
  }

  // ----- the bound -----

  // Blocks the open calls may still add.
  function Unspent(k: nat, ops: seq<Option<nat>>): int {
    if ops == [] then 0 else (if ops[0].Some? then k - ops[0].value else 0) + Unspent(k, ops[1..])
  }

  // What begin_op promises the log must hold in the worst case.
  ghost predicate WithinReserve(k: nat, s: Space) {
    && (forall t :: 0 <= t < |s.ops| && s.ops[t].Some? ==> s.ops[t].value <= k && !s.busy)
    && (Outstanding(s.ops) == 0 ==> s.n == 0)
    && s.n + Unspent(k, s.ops) <= MAXOPBLOCKS + 2 * k
  }

  lemma {:induction false} SetOp(k: nat, ops: seq<Option<nat>>, t: nat, o: Option<nat>)
    requires t < |ops|
    ensures Outstanding(ops[t := o]) == Outstanding(ops)
      - (if ops[t].Some? then 1 else 0) + (if o.Some? then 1 else 0)
    ensures Unspent(k, ops[t := o]) == Unspent(k, ops)
      - (if ops[t].Some? then k - ops[t].value else 0) + (if o.Some? then k - o.value else 0)
  {
    if t == 0 {
      assert ops[t := o][1..] == ops[1..];
    } else {
      assert ops[t := o][1..] == ops[1..][t - 1 := o];
      SetOp(k, ops[1..], t - 1, o);
    }
  }

  lemma {:induction false} UnspentBounds(k: nat, ops: seq<Option<nat>>)
    requires forall t :: 0 <= t < |ops| && ops[t].Some? ==> ops[t].value <= k
    ensures 0 <= Unspent(k, ops) <= Outstanding(ops) * k
    ensures Outstanding(ops) == 0 ==> Unspent(k, ops) == 0
  {
    if ops != [] {
      UnspentBounds(k, ops[1..]);
      assert (1 + Outstanding(ops[1..])) * k == k + Outstanding(ops[1..]) * k;
    }
  }

  lemma {:induction false} EmptyOps(k: nat, threads: nat)
    ensures Outstanding(Empty(threads).ops) == 0 && Unspent(k, Empty(threads).ops) == 0
  {
    if threads > 0 {
      EmptyOps(k, threads - 1);
      assert Empty(threads).ops[1..] == Empty(threads - 1).ops;
    }
  }

  lemma BeginKeepsReserve(k: nat, s: Space, s': Space, t: nat)
    requires k <= MAXOPBLOCKS && WithinReserve(k, s) && Begin(s, s', t)
    ensures WithinReserve(k, s')
  {
    SetOp(k, s.ops, t, Some(0));
    UnspentBounds(k, s.ops);
    var out := Outstanding(s.ops);
    assert out <= 2;
    assert out == 1 ==> Unspent(k, s.ops) <= k;
    assert out == 2 ==> Unspent(k, s.ops) <= 2 * k;
  }

  lemma NextKeepsReserve(l: Layout, k: nat, s: Space, s': Space)
    requires k <= MAXOPBLOCKS && WithinReserve(k, s) && Next(l, k, s, s')
    ensures WithinReserve(k, s')
  {
    if t: nat :| Begin(s, s', t) {
      BeginKeepsReserve(k, s, s', t);
    } else if t: nat :| Add(l, k, s, s', t) {
      SetOp(k, s.ops, t, Some(s.ops[t].value + 1));
    } else if t: nat :| End(s, s', t) {
      SetOp(k, s.ops, t, None);
      UnspentBounds(k, s.ops[t := None]);
      UnspentBounds(k, s.ops);
      if Outstanding(s.ops[t := None]) == 0 { NoneOutstanding(s.ops[t := None]); }
    } else if Reset(s, s') {
      EmptyOps(k, |s.ops|);
    }
  }

  lemma {:induction false} AllNone(ops: seq<Option<nat>>)
    requires forall t :: 0 <= t < |ops| ==> ops[t].None?
    ensures Outstanding(ops) == 0
  {
    if ops != [] { AllNone(ops[1..]); }
  }

  // ----- the log protocol lives within this account -----

  function SpaceOf(g: Log): Space {
    Space(if g.phase.Normal? then |g.lh| else 0, g.ops, !g.phase.Normal?)
  }

  // If the step appends a block to the log, its call has budget left.
  ghost predicate Frugal(k: nat, s: State, step: Step) {
    step.LogWrite? && step.i < |s.cache| && s.cache[step.i].key.Some? && s.cache[step.i].key.value !in s.log.lh
    && step.t < |s.log.ops| && s.log.ops[step.t].Some?
    ==> s.log.ops[step.t].value < k
  }

  /** Every protocol step is a step of the account, so its bound covers the log itself. */
  lemma ProtocolFollowsAccount(l: Layout, k: nat, s: State, step: Step)
    requires Inv(l, s) && Enabled(l, s, step) && Frugal(k, s, step)
    ensures Next(l, k, SpaceOf(s.log), SpaceOf(Apply(l, s, step).log))
  {
    var a, b := SpaceOf(s.log), SpaceOf(Apply(l, s, step).log);
    match step {
      case LogWrite(t, i) =>
        assert b == a || Add(l, k, a, b, t);
      case BeginOp(t) =>
        assert Begin(a, b, t);
      case EndOp(t) =>
        assert End(a, b, t);
      case EndCommit =>
        assert Resume(a, b);
      case ClearHead(_) =>
        assert b == a || Resume(a, b);
      case Crash(_) =>
        assert Reset(a, b);
      case _ =>
        assert b == a;
    }
  }

  ghost predicate FrugalRun(l: Layout, k: nat, s: State, steps: seq<Step>)
    requires ValidRun(l, s, steps)
    decreases |steps|
  {
    steps == [] || (Frugal(k, s, steps[0]) && FrugalRun(l, k, Apply(l, s, steps[0]), steps[1..]))
  }

  lemma {:induction false} RunWithinReserve(l: Layout, k: nat, s: State, steps: seq<Step>)
    requires Inv(l, s) && ValidRun(l, s, steps) && FrugalRun(l, k, s, steps) && k <= MAXOPBLOCKS
    requires WithinReserve(k, SpaceOf(s.log))
    ensures Inv(l, After(l, s, steps)) && WithinReserve(k, SpaceOf(After(l, s, steps).log))
    decreases |steps|
  {
    if steps != [] {
      StepKeepsInv(l, s, steps[0]);
      ProtocolFollowsAccount(l, k, s, steps[0]);
      NextKeepsReserve(l, k, SpaceOf(s.log), SpaceOf(Apply(l, s, steps[0]).log));
      RunWithinReserve(l, k, Apply(l, s, steps[0]), steps[1..]);
    }
  }

  lemma BootsWithinReserve(l: Layout, k: nat, s: State)
    requires Boots(l, s)
    ensures Inv(l, s) && WithinReserve(k, SpaceOf(s.log))
  {
    BootsInv(l, s);
    assert SpaceOf(s.log).ops == Empty(|s.log.ops|).ops;
    EmptyOps(k, |s.log.ops|);
  }

  /**
   begin_op's reservation, on every run of the protocol: blocks in the log plus unspent
   budgets never exceed LOGSIZE, and while a commit runs no call is outstanding.
   */
  lemma ReservationIsSound(l: Layout, s: State, steps: seq<Step>)
    requires Boots(l, s) && ValidRun(l, s, steps) && FrugalRun(l, MAXOPBLOCKS, s, steps)
    ensures var g := After(l, s, steps).log;
      if g.phase.Normal? then |g.lh| + Unspent(MAXOPBLOCKS, g.ops) <= LOGSIZE else Outstanding(g.ops) == 0
  {
    var g := After(l, s, steps).log;
    BootsWithinReserve(l, MAXOPBLOCKS, s);
    RunWithinReserve(l, MAXOPBLOCKS, s, steps);
    if !g.phase.Normal? { AllNone(g.ops); }
  }

  // The number of blocks at which log_write panics.
  function Limit(l: Layout): int {
    if LOGSIZE <= l.nlog - 1 then LOGSIZE else l.nlog - 1
  }

  /**
   If every call adds at most `k` blocks, the log stays below the limit at MAXOPBLOCKS +
   2k, and log_write does not panic.
   */
  lemma LogWriteNeverPanics(l: Layout, k: nat, s: State, steps: seq<Step>, t: nat)
    requires k <= MAXOPBLOCKS && MAXOPBLOCKS + 2 * k < Limit(l) && Boots(l, s) && ValidRun(l, s, steps)
    requires FrugalRun(l, k, s, steps)
    requires var g := After(l, s, steps).log; t < |g.ops| && g.ops[t].Some?
    ensures var g := After(l, s, steps).log; !LogWritePanics(l, |g.lh|, Outstanding(g.ops))
  {
    var g := After(l, s, steps).log;
    BootsWithinReserve(l, k, s);
    RunWithinReserve(l, k, s, steps);
    UnspentBounds(k, g.ops);
    if Outstanding(g.ops) == 0 { NoneOutstanding(g.ops); }
  }
}
