/** Every run of the driver and the device, interleaved in any way and completing in any order. */
module VirtioRuns {
  import opened Common
  import opened VirtioQueue
  import opened VirtioSafety

  // ----- the table -----

  lemma FreeNotOwned(t: Table, reqs: map<nat, Req>, h: nat, i: nat)
    requires Partitioned(t, reqs) && h in reqs && i < NUM && t.free[i]
    ensures !Owns(h, reqs[h], i)
  {
    assert GoodChain(t, h, reqs[h]);
  }

  lemma ThreeFree(free: seq<bool>, i: nat, j: nat, k: nat)
    requires FirstThree(free, i, j, k)
    ensures i < |free| && j < |free| && k < |free| && free[i] && free[j] && free[k] && i != j && i != k && j != k
  {
  }

  lemma PostChains(t: Table, reqs: map<nat, Req>, i: nat, j: nat, k: nat, r: Req)
    requires Partitioned(t, reqs) && i < NUM && j < NUM && k < NUM && i != j && i != k && j != k && t.free[i]
    requires t.free[j] && t.free[k]
    requires r.mid == j && r.last == k
    ensures Chains(Formatted(t, i, j, k, r.b, r.op), reqs[i := r])
  {
    var t', reqs' := Formatted(t, i, j, k, r.b, r.op), reqs[i := r];
    assert GoodChain(t', i, r);
    forall h | h in reqs' && h != i ensures GoodChain(t', h, reqs'[h]) {
      assert GoodChain(t, h, reqs[h]);
      FreeNotOwned(t, reqs, h, i);
      FreeNotOwned(t, reqs, h, j);
      FreeNotOwned(t, reqs, h, k);
    }
  }

  lemma PostDisjoint(t: Table, reqs: map<nat, Req>, i: nat, j: nat, k: nat, r: Req)
    requires Partitioned(t, reqs) && i < NUM && j < NUM && k < NUM && t.free[i] && t.free[j] && t.free[k]
    requires r.mid == j && r.last == k && forall h :: h in reqs ==> reqs[h].b != r.b && reqs[h].serial != r.serial
    ensures AllDisjoint(reqs[i := r])
  {
    var reqs' := reqs[i := r];
    forall h, g | h in reqs' && g in reqs' && h != g ensures Disjoint(h, reqs'[h], g, reqs'[g]) {
      var elder := if h == i then g else h;
      if h == i || g == i {
        FreeNotOwned(t, reqs, elder, i);
        FreeNotOwned(t, reqs, elder, j);
        FreeNotOwned(t, reqs, elder, k);
      } else {
        assert Disjoint(h, reqs[h], g, reqs[g]);
      }
    }
  }

  lemma PostCovers(t: Table, reqs: map<nat, Req>, i: nat, j: nat, k: nat, r: Req)
    requires Partitioned(t, reqs) && i < NUM && j < NUM && k < NUM && t.free[i] && r.mid == j && r.last == k
    ensures Covered(Formatted(t, i, j, k, r.b, r.op), reqs[i := r])
  {
    var t', reqs' := Formatted(t, i, j, k, r.b, r.op), reqs[i := r];
    forall n | 0 <= n < NUM ensures CoveredAt(t', reqs', n) {
      assert CoveredAt(t, reqs, n);
      if n == i || n == j || n == k {
        assert Owns(i, reqs'[i], n);
      } else if !t.free[n] {
        var h :| h in reqs && Owns(h, reqs[h], n);
        assert GoodChain(t, h, reqs[h]) && Owns(h, reqs'[h], n);
      }
    }
  }

  lemma FinishKeepsPartition(t: Table, reqs: map<nat, Req>, h: nat)
    requires Partitioned(t, reqs) && h in reqs
    ensures GoodChain(t, h, reqs[h]) && Partitioned(FreedChain(t, h, reqs[h].mid, reqs[h].last), reqs - {h})
  {
    var r := reqs[h];
    assert GoodChain(t, h, r);
    var t', reqs' := FreedChain(t, h, r.mid, r.last), reqs - {h};
    forall g | g in reqs' ensures GoodChain(t', g, reqs'[g]) {
      assert GoodChain(t, g, reqs[g]) && Disjoint(h, r, g, reqs[g]);
    }
    forall f, g | f in reqs' && g in reqs' && f != g ensures Disjoint(f, reqs'[f], g, reqs'[g]) {
      assert Disjoint(f, reqs[f], g, reqs[g]);
    }
    forall n | 0 <= n < NUM ensures CoveredAt(t', reqs', n) {
      assert CoveredAt(t, reqs, n);
      if !t'.free[n] {
        var g :| g in reqs && Owns(g, reqs[g], n);
        assert Owns(g, reqs'[g], n);
      }
    }
  }

  // ----- steps -----

  lemma HeadsBelow(s: State)
    requires Inv(s)
    ensures forall h :: h in s.stage ==> h < NUM
  {
    forall h | h in s.stage ensures h < NUM { assert h in s.reqs; assert GoodChain(s.q.t, h, s.reqs[h]); }
  }

  // Moving a request between stages other than Done leaves the records as they are.
  lemma MoveKeepsHistory(s: State, s': State, h: nat, to: Stage)
    requires History(s) && h in s.reqs && s.stage[h] != Done && to != Done && s'.reqs == s.reqs
    requires s'.stage == s.stage[h := to]
    requires s'.q.flagged == s.q.flagged && s'.issued == s.issued && s'.cleared == s.cleared
    ensures History(s')
  {
    forall g | g in s'.reqs ensures RecordAt(s', g) { assert RecordAt(s, g); }
  }

  lemma PostRecords(s: State, i: nat, j: nat, k: nat, b: nat, op: Op)
    requires Inv(s) && Enabled(s, Post(i, j, k, b, op)) && i !in s.reqs
    ensures History(AfterPost(s, i, j, k, b, op))
  {
    var s' := AfterPost(s, i, j, k, b, op);
    forall g | g in s'.reqs ensures RecordAt(s', g) { if g != i { assert RecordAt(s, g); } }
  }

  lemma PostKeepsInv(s: State, i: nat, j: nat, k: nat, b: nat, op: Op)
    requires Inv(s) && Enabled(s, Post(i, j, k, b, op))
    ensures Inv(AfterPost(s, i, j, k, b, op))
  {
    ThreeFree(s.q.t.free, i, j, k);
    var r := Req(b, op, |s.issued|, j, k);
    if i in s.reqs { FreeNotOwned(s.q.t, s.reqs, i, i); }
    forall h | h in s.reqs ensures s.reqs[h].b != b && s.reqs[h].serial != r.serial { assert RecordAt(s, h); }
    PostChains(s.q.t, s.reqs, i, j, k, r);
    PostDisjoint(s.q.t, s.reqs, i, j, k, r);
    PostCovers(s.q.t, s.reqs, i, j, k, r);
    HeadsBelow(s);
    RingWrites(s.q.ring, s.taken, s.q.avail, s.pending, s.stage, Pending, Posted, i);
    RingKeeps(s.q.used, s.q.seen, s.q.usedIdx, s.unseen, s.stage, Unseen, Writing, i, Posted);
    PostRecords(s, i, j, k, b, op);
  }

  lemma PublishKeepsInv(s: State, h: nat)
    requires Inv(s) && Enabled(s, Publish(h))
    ensures Inv(AfterPublish(s, h))
  {
    RingPublishes(s.q.ring, s.taken, s.q.avail, s.pending, s.stage, Pending, Posted, h);
    RingKeeps(s.q.used, s.q.seen, s.q.usedIdx, s.unseen, s.stage, Unseen, Writing, h, Pending);
    MoveKeepsHistory(s, AfterPublish(s, h), h, Pending);
  }

  lemma ConsumeKeepsInv(s: State)
    requires Inv(s) && Enabled(s, Consume)
    ensures Inv(AfterConsume(s))
  {
    RingReads(s.q.ring, s.taken, s.q.avail, s.pending, s.stage, Pending, Posted, Busy);
    RingKeeps(s.q.used, s.q.seen, s.q.usedIdx, s.unseen, s.stage, Unseen, Writing, Consumed(s), Busy);
    MoveKeepsHistory(s, AfterConsume(s), Consumed(s), Busy);
  }

  lemma CompleteKeepsInv(s: State, h: nat, result: nat)
    requires Inv(s) && Enabled(s, Complete(h, result))
    ensures Inv(AfterComplete(s, h, result))
  {
    HeadsBelow(s);
    RingWrites(s.q.used, s.q.seen, s.q.usedIdx, s.unseen, s.stage, Unseen, Writing, h);
    RingKeeps(s.q.ring, s.taken, s.q.avail, s.pending, s.stage, Pending, Posted, h, Writing);
    MoveKeepsHistory(s, AfterComplete(s, h, result), h, Writing);
  }

  lemma AdvanceKeepsInv(s: State, h: nat)
    requires Inv(s) && Enabled(s, Advance(h))
    ensures Inv(AfterAdvance(s, h))
  {
    RingPublishes(s.q.used, s.q.seen, s.q.usedIdx, s.unseen, s.stage, Unseen, Writing, h);
    RingKeeps(s.q.ring, s.taken, s.q.avail, s.pending, s.stage, Pending, Posted, h, Unseen);
    MoveKeepsHistory(s, AfterAdvance(s, h), h, Unseen);
  }

  /**
   A completion the interrupt handler sees belongs to a request that is in flight;
   it clears the flag of that request's buffer, which was up, and no other flag.
   */
  lemma ReapClearsItsBuffer(s: State)
    requires Inv(s) && Enabled(s, Reap)
    ensures var h := Reaped(s);
      && At(s.stage, h, Unseen) && h in s.reqs && s.reqs[h].b in s.q.flagged
      && AfterReap(s).q.flagged == s.q.flagged - {s.reqs[h].b}
      && s.reqs[h].serial !in s.cleared && AfterReap(s).cleared == s.cleared + [s.reqs[h].serial]
  {
    RingReads(s.q.used, s.q.seen, s.q.usedIdx, s.unseen, s.stage, Unseen, Writing, Done);
    var h := Reaped(s);
    assert h in s.reqs;
    assert GoodChain(s.q.t, h, s.reqs[h]) && RecordAt(s, h);
  }

  lemma ReapKeepsInv(s: State)
    requires Inv(s) && Enabled(s, Reap)
    ensures Inv(AfterReap(s))
  {
    ReapClearsItsBuffer(s);
    var h, s' := Reaped(s), AfterReap(s);
    RingReads(s.q.used, s.q.seen, s.q.usedIdx, s.unseen, s.stage, Unseen, Writing, Done);
    RingKeeps(s.q.ring, s.taken, s.q.avail, s.pending, s.stage, Pending, Posted, h, Done);
    forall g | g in s'.reqs ensures RecordAt(s', g) {
      assert RecordAt(s, g);
      if g != h { assert Disjoint(g, s.reqs[g], h, s.reqs[h]); }
    }
  }

  lemma RingForgets(ring: seq<nat>, start: nat, end: nat, heads: seq<nat>, stage: map<nat, Stage>, listed: Stage,
                    next: Stage, h: nat)
    requires RingFits(ring, start, end, heads, stage, listed, next) && !At(stage, h, listed)
    ensures RingFits(ring, start, end, heads, stage - {h}, listed, next)
  {
    forall g | g in heads ensures At(stage - {h}, g, listed) { assert At(stage, g, listed); }
  }

  /** An issuer that finds its buffer's flag down has been completed, exactly once. */
  lemma FinishAfterCompletion(s: State, h: nat)
    requires Inv(s) && Enabled(s, Finish(h))
    ensures At(s.stage, h, Done) && s.reqs[h].serial in s.cleared
  {
    assert RecordAt(s, h);
  }

  lemma FinishKeepsInv(s: State, h: nat)
    requires Inv(s) && Enabled(s, Finish(h))
    ensures Inv(AfterFinish(s, h))
  {
    FinishAfterCompletion(s, h);
    FinishKeepsPartition(s.q.t, s.reqs, h);
    RingForgets(s.q.ring, s.taken, s.q.avail, s.pending, s.stage, Pending, Posted, h);
    RingForgets(s.q.used, s.q.seen, s.q.usedIdx, s.unseen, s.stage, Unseen, Writing, h);
    var s' := AfterFinish(s, h);
    forall g | g in s'.reqs ensures RecordAt(s', g) { assert RecordAt(s, g); }
  }

  lemma StepKeepsInv(s: State, step: Step)
    requires Inv(s) && Enabled(s, step)
    ensures Inv(Apply(s, step))
  {
    match step
    case Post(i, j, k, b, op) => PostKeepsInv(s, i, j, k, b, op);
    case Publish(h) => PublishKeepsInv(s, h);
    case Consume => ConsumeKeepsInv(s);
    case Complete(h, result) => CompleteKeepsInv(s, h, result);
    case Advance(h) => AdvanceKeepsInv(s, h);
    case Reap => ReapKeepsInv(s);
    case Finish(h) => FinishKeepsInv(s, h);
  }

  // ----- runs -----

  // After virtio_disk_init: every descriptor free, both rings empty.
  ghost predicate Boot(s: State) {
    && Sized(s.q) && s.reqs == map[] && s.stage == map[] && s.pending == []
    && s.unseen == [] && s.issued == [] && s.cleared == []
    && s.taken == s.q.avail && s.q.seen == s.q.usedIdx
    && forall i :: 0 <= i < NUM ==> s.q.t.free[i] && s.q.t.desc[i] == NO_DESC
  }

  ghost predicate Runs(s: State, steps: seq<Step>)
    decreases |steps|
  {
    steps == [] || (Sized(s.q) && Enabled(s, steps[0]) && Runs(Apply(s, steps[0]), steps[1..]))
  }

  ghost function After(s: State, steps: seq<Step>): State
    requires Runs(s, steps)
    decreases |steps|
  {
    if steps == [] then s else After(Apply(s, steps[0]), steps[1..])
  }

  lemma {:induction false} RunKeepsInv(s: State, steps: seq<Step>)
    requires Inv(s) && Runs(s, steps)
    ensures Inv(After(s, steps))
    decreases |steps|
  {
    if steps != [] {
      StepKeepsInv(s, steps[0]);
      RunKeepsInv(Apply(s, steps[0]), steps[1..]);
    }
  }

  lemma BootEstablishes(s: State)
    requires Boot(s)
    ensures Inv(s)
  {
    forall i | 0 <= i < NUM ensures CoveredAt(s.q.t, s.reqs, i) { }
  }

  /** The descriptors are partitioned, in every state of every run. */
  lemma DescriptorsPartitioned(s: State, steps: seq<Step>)
    requires Boot(s) && Runs(s, steps)
    ensures var s' := After(s, steps); Partitioned(s'.q.t, s'.reqs)
  {
    BootEstablishes(s);
    RunKeepsInv(s, steps);
  }

  // A piece of memory a chain hands to the device, and whether the device is to write it.
  datatype Segment = Segment(addr: Addr, len: nat, written: bool)

  // What a device finds that follows a chain from descriptor `i`, for at most `n` descriptors.
  function Follow(desc: seq<Desc>, i: nat, n: nat): seq<Segment>
    decreases n
  {
    if n == 0 || i >= |desc| then []
    else [Segment(desc[i].addr, desc[i].len, desc[i].flags / 2 % 2 == 1)] +
         if desc[i].flags % 2 == 1 then Follow(desc, desc[i].next, n - 1) else []
  }

  // A block request as section 5.2.6 of Virtio 1.1 lays it out: a 16-byte header, a 1024-byte block that the device
  // writes unless the request is a write, and a status byte that it writes.
  function RequestFor(h: nat, b: nat, write: bool): seq<Segment> {
    [Segment(OpOf(h), 16, false), Segment(DataOf(b), 1024, !write), Segment(StatusOf(h), 1, true)]
  }

  lemma FollowChain(t: Table, h: nat, r: Req)
    requires GoodChain(t, h, r)
    ensures Follow(t.desc, h, NUM) == RequestFor(h, r.b, r.op.write)
  {
    var w := r.op.write;
    assert Follow(t.desc, r.last, NUM - 2) == [Segment(StatusOf(h), 1, true)];
    assert Follow(t.desc, r.mid, NUM - 1) == [Segment(DataOf(r.b), 1024, !w), Segment(StatusOf(h), 1, true)];
  }

  /**
   In every run, the device finds in the next slot the oldest request it has not
   taken, and its chain is a request for the operation and the buffer that were issued.
   */
  lemma DeviceReadsWhatWasIssued(s: State, steps: seq<Step>)
    requires Boot(s) && Runs(s, steps) && Sized(After(s, steps).q) && Enabled(After(s, steps), Consume)
    ensures var s' := After(s, steps); var h := Consumed(s');
      && |s'.pending| > 0 && h == s'.pending[0] && h in s'.reqs && h < |s'.q.t.ops| && s'.q.t.ops[h] == s'.reqs[h].op
      && Follow(s'.q.t.desc, h, NUM) == RequestFor(h, s'.reqs[h].b, s'.reqs[h].op.write)
  {
    BootEstablishes(s);
    RunKeepsInv(s, steps);
    var s' := After(s, steps);
    RingReads(s'.q.ring, s'.taken, s'.q.avail, s'.pending, s'.stage, Pending, Posted, Busy);
    FollowChain(s'.q.t, Consumed(s'), s'.reqs[Consumed(s')]);
  }

  /** The slot the driver writes for a new request holds no request the device has yet to take, across index wrap. */
  lemma NoSlotOverwritten(s: State, steps: seq<Step>, i: nat, j: nat, k: nat, b: nat, op: Op, n: nat)
    requires Boot(s) && Runs(s, steps) && Sized(After(s, steps).q) && Enabled(After(s, steps), Post(i, j, k, b, op))
    requires n < |After(s, steps).pending|
    ensures var s' := After(s, steps); (s'.taken + n) % NUM != s'.q.avail % NUM
  {
    BootEstablishes(s);
    RunKeepsInv(s, steps);
    var s' := After(s, steps);
    HeadsBelow(s');
    ThreeFree(s'.q.t.free, i, j, k);
    if i in s'.reqs { FreeNotOwned(s'.q.t, s'.reqs, i, i); }
    RingWrites(s'.q.ring, s'.taken, s'.q.avail, s'.pending, s'.stage, Pending, Posted, i);
    WrapSlot(s'.taken + |s'.pending|, 0);
    SlotsDiffer(s'.taken, n, |s'.pending|);
  }

  /** No request is completed twice, and each completed one was issued. */
  lemma CompletedOnce(s: State, steps: seq<Step>)
    requires Boot(s) && Runs(s, steps)
    ensures var s' := After(s, steps); Distinct(s'.cleared) && forall n :: n in s'.cleared ==> n < |s'.issued|
  {
    BootEstablishes(s);
    RunKeepsInv(s, steps);
  }

  // ----- the status panic -----

  // The status of every request the device has finished is 0.
  ghost predicate Succeeded(s: State)
    requires Sized(s.q)
  {
    forall h :: h in s.stage && h < NUM && s.stage[h] in {Writing, Unseen, Done} ==> s.q.status[h] == 0
  }

  ghost predicate ReportsSuccess(step: Step) {
    step.Complete? ==> step.result == 0
  }

  // Moving one request on, its status 0 if the device is done with it.
  lemma MoveSucceeds(s: State, s': State, h: nat, to: Stage)
    requires Sized(s.q) && Succeeded(s) && Sized(s'.q) && s'.stage == s.stage[h := to]
    requires forall g :: 0 <= g < NUM && g != h ==> s'.q.status[g] == s.q.status[g]
    requires h < NUM && to in {Writing, Unseen, Done} ==> s'.q.status[h] == 0
    ensures Succeeded(s')
  {
  }

  lemma StepSucceeds(s: State, step: Step)
    requires Inv(s) && Enabled(s, step) && Succeeded(s) && ReportsSuccess(step) && Sized(Apply(s, step).q)
    ensures Succeeded(Apply(s, step))
  {
    var s' := Apply(s, step);
    match step
    case Post(i, j, k, b, op) => MoveSucceeds(s, s', i, Posted);
    case Publish(h) => MoveSucceeds(s, s', h, Pending);
    case Consume => MoveSucceeds(s, s', Consumed(s), Busy);
    case Complete(h, result) => MoveSucceeds(s, s', h, Writing);
    case Advance(h) => MoveSucceeds(s, s', h, Unseen);
    case Reap => ReapClearsItsBuffer(s); MoveSucceeds(s, s', Reaped(s), Done);
    case Finish(h) =>
  }

  lemma {:induction false} RunSucceeds(s: State, steps: seq<Step>)
    requires Inv(s) && Succeeded(s) && Runs(s, steps) && forall n :: 0 <= n < |steps| ==> ReportsSuccess(steps[n])
    ensures Inv(After(s, steps)) && Succeeded(After(s, steps))
    decreases |steps|
  {
    if steps != [] {
      assert ReportsSuccess(steps[0]);
      StepKeepsInv(s, steps[0]);
      StepSucceeds(s, steps[0]);
      forall n | 0 <= n < |steps[1..]| ensures ReportsSuccess(steps[1..][n]) { assert ReportsSuccess(steps[n + 1]); }
      RunSucceeds(Apply(s, steps[0]), steps[1..]);
    }
  }

  /** As long as the device reports success, virtio_disk_intr does not panic. */
  lemma NoStatusPanic(s: State, steps: seq<Step>)
    requires Boot(s) && Runs(s, steps) && (forall n :: 0 <= n < |steps| ==> ReportsSuccess(steps[n]))
    requires Sized(After(s, steps).q) && Enabled(After(s, steps), Reap)
    ensures var s' := After(s, steps); Reaped(s') < NUM && s'.q.status[Reaped(s')] == 0
  {
    BootEstablishes(s);
    RunSucceeds(s, steps);
    var s' := After(s, steps);
    ReapClearsItsBuffer(s');
    HeadsBelow(s');
  }
}
