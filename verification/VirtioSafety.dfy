/** What every step of the driver and of the device keeps. */
module VirtioSafety {
  import opened Common
  import opened VirtioQueue

  // ----- chains -----

  predicate Owns(h: nat, r: Req, i: nat) {
    i == h || i == r.mid || i == r.last
  }

  // The three descriptors of a request are its own and say what to do.
  ghost predicate GoodChain(t: Table, h: nat, r: Req) {
    && TableSized(t) && h < NUM && r.mid < NUM && r.last < NUM && h != r.mid && h != r.last && r.mid != r.last
    && !t.free[h] && !t.free[r.mid] && !t.free[r.last]
    && t.desc[h] == Desc(OpOf(h), 16, DESC_NEXT, r.mid) && t.desc[r.mid] == DataDesc(r.b, r.op.write, r.last)
    && t.desc[r.last] == Desc(StatusOf(h), 1, DESC_WRITE, 0)
    && t.ops[h] == r.op && t.bufs[h] == Some(r.b)
  }

  ghost predicate Disjoint(h: nat, r: Req, g: nat, r': Req) {
    && !Owns(g, r', h) && !Owns(g, r', r.mid) && !Owns(g, r', r.last)
    && r.b != r'.b && r.serial != r'.serial
  }

  ghost predicate Owned(reqs: map<nat, Req>, i: nat) {
    exists h :: h in reqs && Owns(h, reqs[h], i)
  }

  ghost predicate Chains(t: Table, reqs: map<nat, Req>) {
    forall h {:trigger GoodChain(t, h, reqs[h])} :: h in reqs ==> GoodChain(t, h, reqs[h])
  }

  ghost predicate AllDisjoint(reqs: map<nat, Req>) {
    forall h, g {:trigger Disjoint(h, reqs[h], g, reqs[g])} :: h in reqs && g in reqs && h != g ==>
      Disjoint(h, reqs[h], g, reqs[g])
  }

  ghost predicate Covered(t: Table, reqs: map<nat, Req>) {
    TableSized(t) && forall i :: 0 <= i < NUM ==> CoveredAt(t, reqs, i)
  }

  ghost predicate CoveredAt(t: Table, reqs: map<nat, Req>, i: nat)
    requires TableSized(t) && i < NUM
  {
    if t.free[i] then t.desc[i] == NO_DESC else Owned(reqs, i)
  }

  // The descriptors are partitioned into free ones, which are clear, and disjoint chains of three.
  ghost predicate Partitioned(t: Table, reqs: map<nat, Req>) {
    Chains(t, reqs) && AllDisjoint(reqs) && Covered(t, reqs)
  }

  // ----- rings -----

  // `heads` lists the requests at a stage, each once.
  ghost predicate Lists(stage: map<nat, Stage>, heads: seq<nat>, at: Stage) {
    && Distinct(heads)
    && (forall h :: h in heads ==> At(stage, h, at))
    && (forall h :: h in stage && stage[h] == at ==> h in heads)
  }

  // The slots from `start` on, modulo NUM, hold `heads`.
  ghost predicate Slots(ring: seq<nat>, start: nat, heads: seq<nat>) {
    |ring| == NUM && forall k :: 0 <= k < |heads| ==> SlotAt(ring, start, heads, k)
  }

  ghost predicate SlotAt(ring: seq<nat>, start: nat, heads: seq<nat>, k: nat)
    requires |ring| == NUM && k < |heads|
  {
    ring[(start + k) % NUM] == heads[k]
  }

  // A ring read up to `start` and published up to `end`: its entries are the requests at stage `listed`, and
  // the request at stage `next`, if any, is in the slot about to be published.
  ghost predicate RingFits(ring: seq<nat>, start: nat, end: nat, heads: seq<nat>, stage: map<nat, Stage>,
                           listed: Stage, next: Stage) {
    && start < WRAP && end == (start + |heads|) % WRAP
    && Lists(stage, heads, listed) && Slots(ring, start, heads)
    && forall h :: h in stage && stage[h] == next ==> ring[(start + |heads|) % NUM] == h
  }

  // ----- history -----

  // A request's flag is up, and its serial not among the cleared, until it is done.
  ghost predicate GoodRecord(r: Req, at: Stage, flagged: set<nat>, issued: seq<nat>, cleared: seq<nat>) {
    && r.serial < |issued| && issued[r.serial] == r.b
    && (r.b in flagged <==> at != Done)
    && (r.serial in cleared <==> at == Done)
  }

  ghost predicate RecordAt(s: State, h: nat)
    requires h in s.reqs && h in s.stage
  {
    GoodRecord(s.reqs[h], s.stage[h], s.q.flagged, s.issued, s.cleared)
  }

  ghost predicate History(s: State) {
    && s.stage.Keys == s.reqs.Keys
    && (forall h {:trigger RecordAt(s, h)} :: h in s.reqs ==> RecordAt(s, h))
    && Distinct(s.cleared) && (forall n :: n in s.cleared ==> n < |s.issued|)
  }

  ghost predicate Rings(s: State) {
    && RingFits(s.q.ring, s.taken, s.q.avail, s.pending, s.stage, Pending, Posted)
    && RingFits(s.q.used, s.q.seen, s.q.usedIdx, s.unseen, s.stage, Unseen, Writing)
  }

  ghost predicate Inv(s: State) {
    Sized(s.q) && Partitioned(s.q.t, s.reqs) && Rings(s) && History(s)
  }

  // ----- counting and wrap-around -----

  lemma {:induction false} Pigeons(s: seq<nat>, n: nat)
    requires Distinct(s) && forall i :: 0 <= i < |s| ==> s[i] < n
    ensures |s| <= n
    decreases n
  {
    if |s| > 0 {
      assert s[0] < n;
      if j :| 0 <= j < |s| && s[j] == n - 1 {
        var t := s[..j] + s[j + 1..];
        forall i | 0 <= i < |t| ensures t[i] < n - 1 { assert s[i] != s[j] || i >= j; }
        Pigeons(t, n - 1);
      } else {
        Pigeons(s, n - 1);
      }
    }
  }

  lemma SlotsDiffer(x: nat, k: nat, n: nat)
    requires k < n < NUM
    ensures (x + k) % NUM != (x + n) % NUM
  {
  }

  lemma ModShift(y: nat, z: nat)
    ensures (y + NUM * z) % NUM == y % NUM
  {
  }

  // 16-bit indices agree with unbounded ones modulo NUM.
  lemma WrapSlot(x: nat, k: nat)
    ensures (x % WRAP + k) % NUM == (x + k) % NUM
  {
    var m := x / WRAP;
    assert x + k == (x % WRAP + k) + NUM * (8192 * m);
    ModShift(x % WRAP + k, 8192 * m);
  }

  lemma WrapNext(x: nat, n: nat)
    ensures ((x + n) % WRAP + 1) % WRAP == (x + (n + 1)) % WRAP
    ensures ((x + 1) % WRAP + n) % WRAP == (x + (n + 1)) % WRAP
  {
  }

  // Writing the slot behind the last entry overwrites no entry.
  lemma SlotsPut(ring: seq<nat>, start: nat, heads: seq<nat>, h: nat)
    requires Slots(ring, start, heads) && |heads| < NUM
    ensures Slots(ring[(start + |heads|) % NUM := h], start, heads)
  {
    var ring' := ring[(start + |heads|) % NUM := h];
    forall k | 0 <= k < |heads| ensures SlotAt(ring', start, heads, k) {
      assert SlotAt(ring, start, heads, k);
      SlotsDiffer(start, k, |heads|);
    }
  }

  lemma SlotsGrow(ring: seq<nat>, start: nat, heads: seq<nat>, h: nat)
    requires Slots(ring, start, heads) && ring[(start + |heads|) % NUM] == h
    ensures Slots(ring, start, heads + [h])
  {
    forall k | 0 <= k < |heads| + 1 ensures SlotAt(ring, start, heads + [h], k) {
      if k < |heads| { assert SlotAt(ring, start, heads, k); }
    }
  }

  lemma SlotsShrink(ring: seq<nat>, start: nat, heads: seq<nat>)
    requires Slots(ring, start, heads) && |heads| > 0
    ensures Slots(ring, (start + 1) % WRAP, heads[1..])
  {
    var m, rest := (start + 1) % WRAP, heads[1..];
    forall k | 0 <= k < |rest| ensures SlotAt(ring, m, rest, k) {
      assert SlotAt(ring, start, heads, k + 1);
      WrapSlot(start + 1, k);
    }
  }

  // ----- a request moves on -----

  lemma ListKeeps(stage: map<nat, Stage>, heads: seq<nat>, at: Stage, h: nat, to: Stage)
    requires Lists(stage, heads, at) && !At(stage, h, at) && to != at
    ensures Lists(stage[h := to], heads, at)
  {
    forall g | g in heads ensures At(stage[h := to], g, at) { assert At(stage, g, at); }
  }

  lemma ListAdds(stage: map<nat, Stage>, heads: seq<nat>, at: Stage, h: nat)
    requires Lists(stage, heads, at) && !At(stage, h, at)
    ensures Lists(stage[h := at], heads + [h], at)
  {
    assert h !in heads;
    forall g | g in heads + [h] ensures At(stage[h := at], g, at) { assert g in heads ==> At(stage, g, at); }
  }

  lemma ListDrops(stage: map<nat, Stage>, heads: seq<nat>, at: Stage, to: Stage)
    requires Lists(stage, heads, at) && |heads| > 0 && to != at
    ensures Lists(stage[heads[0] := to], heads[1..], at)
  {
    var stage' := stage[heads[0] := to];
    forall g | g in heads[1..] ensures At(stage', g, at) { assert At(stage, g, at) && g != heads[0]; }
    forall g | g in stage' && stage'[g] == at ensures g in heads[1..] {
      assert g in heads && g != heads[0];
      var i :| 0 <= i < |heads| && heads[i] == g;
      assert heads[1..][i - 1] == g;
    }
  }

  // A move between other stages leaves a ring as it is.
  lemma RingKeeps(ring: seq<nat>, start: nat, end: nat, heads: seq<nat>, stage: map<nat, Stage>, listed: Stage,
                  next: Stage, h: nat, to: Stage)
    requires RingFits(ring, start, end, heads, stage, listed, next) && !At(stage, h, listed) && to != listed
    requires to != next
    ensures RingFits(ring, start, end, heads, stage[h := to], listed, next)
  {
    ListKeeps(stage, heads, listed, h, to);
  }

  // Writing the next slot: there is room, so no entry not yet read is overwritten.
  lemma RingWrites(ring: seq<nat>, start: nat, end: nat, heads: seq<nat>, stage: map<nat, Stage>, listed: Stage,
                   next: Stage, h: nat)
    requires RingFits(ring, start, end, heads, stage, listed, next) && !At(stage, h, listed) && NoneAt(stage, next)
    requires listed != next
    requires h < NUM && forall g :: g in stage ==> g < NUM
    ensures |heads| < NUM && RingFits(ring[end % NUM := h], start, end, heads, stage[h := next], listed, next)
  {
    forall i | 0 <= i < |heads| ensures heads[i] < NUM { assert At(stage, heads[i], listed); }
    assert Distinct(heads + [h]) by { assert h !in heads; }
    Pigeons(heads + [h], NUM);
    ListKeeps(stage, heads, listed, h, next);
    WrapSlot(start + |heads|, 0);
    SlotsPut(ring, start, heads, h);
  }

  // Publishing it: the new index covers it.
  lemma RingPublishes(ring: seq<nat>, start: nat, end: nat, heads: seq<nat>, stage: map<nat, Stage>, listed: Stage,
                      next: Stage, h: nat)
    requires RingFits(ring, start, end, heads, stage, listed, next) && At(stage, h, next) && listed != next
    ensures RingFits(ring, start, (end + 1) % WRAP, heads + [h], stage[h := listed], listed, next)
  {
    ListAdds(stage, heads, listed, h);
    WrapNext(start, |heads|);
    SlotsGrow(ring, start, heads, h);
    assert forall g :: g in stage && stage[g] == next ==> g == h;
  }

  // Reading the oldest entry.
  lemma RingReads(ring: seq<nat>, start: nat, end: nat, heads: seq<nat>, stage: map<nat, Stage>, listed: Stage,
                  next: Stage, to: Stage)
    requires RingFits(ring, start, end, heads, stage, listed, next) && start != end && to != listed && to != next
    requires listed != next
    ensures |heads| > 0 && ring[start % NUM] == heads[0] && At(stage, heads[0], listed)
    ensures RingFits(ring, (start + 1) % WRAP, end, heads[1..], stage[heads[0] := to], listed, next)
  {
    assert |heads| > 0;
    assert SlotAt(ring, start, heads, 0) && heads[0] in heads;
    ListDrops(stage, heads, listed, to);
    WrapNext(start, |heads| - 1);
    WrapSlot(start + 1, |heads| - 1);
    SlotsShrink(ring, start, heads);
  }
}
