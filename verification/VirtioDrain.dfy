/**
 The queue never gets stuck: wherever a run has led, driver and device can carry
 every request through, until no request is left and every descriptor is free.
 */
module VirtioDrain {
  import opened Common
  import opened VirtioQueue
  import opened VirtioSafety
  import opened VirtioRuns

  // How many steps a request at a stage is from being freed.
  function StepsLeft(at: Stage): nat {
    match at
    case Posted => 6
    case Pending => 5
    case Busy => 4
    case Writing => 3
    case Unseen => 2
    case Done => 1
  }

  // The steps left of the requests with heads below `n`.
  function Work(stage: map<nat, Stage>, n: nat): nat {
    if n == 0 then 0 else Work(stage, n - 1) + if n - 1 in stage then StepsLeft(stage[n - 1]) else 0
  }

  lemma {:induction false} WorkElsewhere(stage: map<nat, Stage>, stage': map<nat, Stage>, h: nat, n: nat)
    requires n <= h && forall g: nat :: g < h ==>
      (g in stage <==> g in stage') && (g in stage ==> stage'[g] == stage[g])
    ensures Work(stage', n) == Work(stage, n)
  {
    if n > 0 { WorkElsewhere(stage, stage', h, n - 1); }
  }

  // A request moves on, or is gone.
  lemma {:induction false} WorkDrops(stage: map<nat, Stage>, stage': map<nat, Stage>, h: nat, n: nat)
    requires h < n && h in stage && (h in stage' ==> StepsLeft(stage'[h]) < StepsLeft(stage[h]))
    requires forall g: nat :: g != h ==> (g in stage <==> g in stage') && (g in stage ==> stage'[g] == stage[g])
    ensures Work(stage', n) < Work(stage, n)
  {
    if h == n - 1 {
      WorkElsewhere(stage, stage', h, n - 1);
    } else {
      WorkDrops(stage, stage', h, n - 1);
    }
  }

  // A ring with entries is not at its end.
  lemma RingMoves(start: nat, end: nat, n: nat)
    requires start < WRAP && end == (start + n) % WRAP && 0 < n <= NUM
    ensures start != end
  {
  }

  // An entry of a ring is to be read: the oldest one can be.
  lemma CanRead(ring: seq<nat>, start: nat, end: nat, heads: seq<nat>, stage: map<nat, Stage>, listed: Stage,
                next: Stage)
    requires RingFits(ring, start, end, heads, stage, listed, next) && (forall h :: h in stage ==> h < NUM)
    requires exists h :: h in stage && stage[h] == listed
    ensures start != end && |heads| > 0 && ring[start % NUM] == heads[0] && At(stage, heads[0], listed)
  {
    assert |heads| > 0;
    assert SlotAt(ring, start, heads, 0) && heads[0] in heads;
    forall i | 0 <= i < |heads| ensures heads[i] < NUM { assert heads[i] in heads; }
    Pigeons(heads, NUM);
    RingMoves(start, end, |heads|);
  }

  // Some step other than a new request brings the queue closer to being empty.
  lemma NextStep(s: State) returns (step: Step)
    requires Inv(s) && s.reqs != map[]
    ensures !step.Post? && Enabled(s, step) && Work(Apply(s, step).stage, NUM) < Work(s.stage, NUM)
  {
    HeadsBelow(s);
    assert forall h :: h in s.stage ==> h < NUM;
    var h;
    if !NoneAt(s.stage, Posted) {
      h :| h in s.stage && s.stage[h] == Posted;
      step := Publish(h);
    } else if !NoneAt(s.stage, Writing) {
      h :| h in s.stage && s.stage[h] == Writing;
      step := Advance(h);
    } else {
      h :| h in s.reqs;
      h, step := StepFor(s, h);
    }
    WorkDrops(s.stage, Apply(s, step).stage, h, NUM);
  }

  lemma StepFor(s: State, h: nat) returns (g: nat, step: Step)
    requires Inv(s) && h in s.reqs && h < NUM && NoneAt(s.stage, Posted) && NoneAt(s.stage, Writing)
    requires forall h :: h in s.stage ==> h < NUM
    ensures !step.Post? && Enabled(s, step) && g in s.stage && g < NUM
    ensures var stage' := Apply(s, step).stage;
      && (stage' == s.stage - {g} || (g in stage' && stage' == s.stage[g := stage'[g]]))
      && (g in stage' ==> StepsLeft(stage'[g]) < StepsLeft(s.stage[g]))
  {
    match s.stage[h]
    case Pending =>
      CanRead(s.q.ring, s.taken, s.q.avail, s.pending, s.stage, Pending, Posted);
      g, step := s.pending[0], Consume;
    case Busy => g, step := h, Complete(h, 0);
    case Unseen =>
      CanRead(s.q.used, s.q.seen, s.q.usedIdx, s.unseen, s.stage, Unseen, Writing);
      g, step := s.unseen[0], Reap;
    case Done =>
      assert RecordAt(s, h) && GoodChain(s.q.t, h, s.reqs[h]);
      g, step := h, Finish(h);
    case _ =>
      assert false;
  }

  // A run without new requests, after which none is left.
  ghost predicate Drains(s: State, steps: seq<Step>) {
    && (forall i :: 0 <= i < |steps| ==> !steps[i].Post?) && Runs(s, steps)
    && var s' := After(s, steps); s'.reqs == map[] && TableSized(s'.q.t) && forall i :: 0 <= i < NUM ==> s'.q.t.free[i]
  }

  lemma {:induction false} DrainsFrom(s: State) returns (steps: seq<Step>)
    requires Inv(s)
    ensures Drains(s, steps)
    decreases Work(s.stage, NUM)
  {
    if s.reqs == map[] {
      steps := [];
      forall i | 0 <= i < NUM ensures s.q.t.free[i] { assert CoveredAt(s.q.t, s.reqs, i); }
    } else {
      var step := NextStep(s);
      StepKeepsInv(s, step);
      var rest := DrainsFrom(Apply(s, step));
      steps := [step] + rest;
      assert steps[1..] == rest;
    }
  }

  /** In every state of every run, the requests under way can all be completed and their descriptors freed. */
  lemma AlwaysDrains(s: State, steps: seq<Step>)
    requires Boot(s) && Runs(s, steps)
    ensures exists more :: Drains(After(s, steps), more)
  {
    BootEstablishes(s);
    RunKeepsInv(s, steps);
    var more := DrainsFrom(After(s, steps));
  }
}
