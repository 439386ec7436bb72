/** The local lists of one `_schedule` call, and what its steps keep, on values. */
module Rounds {
  import opened Basics
  import opened Blocks
  import opened Sequences
  import opened Layouts
  import opened BlockManager
  import opened System
  import opened Memory
  import opened Steps
  import opened Preemption

  /** The list that `_schedule` pops its targets from.  The first three are the scheduler's own
      fields, so what else changes those fields changes the targets too. */
  datatype Queue = QRunning | QSwapped | QWaiting | QCombined

  /** The arguments of one `_schedule` call. */
  datatype Flags = Flags(q: Queue, preemptIfNeed: bool, selfPreempt: bool, maxSequences: int,
                         stopIfBatchLimit: bool, stopIfNoSwap: bool)

  /** The local lists of one `_schedule` call, the tokens batched so far, and the target in hand. */
  datatype Round = Round(q: Queue, scheduled: seq<Id>, delayed: seq<Id>, ignored: seq<Id>, pre: seq<Id>,
                         tokens: int, cur: Option<Id>)

  ghost predicate Origin(q: Queue, status: Status) {
    match q
    case QRunning => status.Running?
    case QSwapped => status.Swapped?
    case QWaiting => status.Waiting?
    case QCombined => status.Waiting? || status.Swapped?
  }

  /** Nothing of these sequences is cached: they are forwarded from their first token. */
  ghost predicate Fresh(data: map<Id, SeqRec>, ids: seq<Id>) {
    forall x :: x in ids ==> x in data && data[x].Cached() == 0
  }

  /** Where `_schedule` stands: its local lists, and the target in hand. */
  ghost predicate Phase(s: Sys, q: Queue, scheduled: seq<Id>, delayed: seq<Id>, cur: Option<Id>) {
    && (s.split <==> q.QCombined?)
    && Lists(scheduled, s.place, AtScheduled)
    && Lists(delayed, s.place, AtDelayed)
    && (forall x :: x in s.place ==> (s.place[x].AtCurrent? <==> cur == Some(x)))
    && (cur.Some? ==> cur.value in s.place)
    && (forall x :: x in s.place && x in s.data && (s.place[x].AtDelayed? || s.place[x].AtCurrent?) ==>
         Origin(q, s.data[x].status))
    && (q.QWaiting? ==> Fresh(s.data, scheduled))
    && (forall x :: x in s.place ==> !s.place[x].AtForwarded? && (q.QRunning? ==> !s.place[x].AtBatch?))
  }

  /** The requests already scheduled, and all others outside the queues, keep their counters and tables. */
  ghost predicate SameBatch(s: Sys, s': Sys) {
    forall x {:trigger Unmoved(s, s', x)} :: x in s.place && (s.place[x].AtScheduled? || s.place[x].AtBatch?) ==>
      Unmoved(s, s', x)
  }

  ghost predicate Unmoved(s: Sys, s': Sys, x: Id) {
    && x in s.place && x in s'.place && s'.place[x] == s.place[x]
    && x in s.data && x in s'.data && s'.data[x] == s.data[x]
    && Lookup(s'.pool.tables, x) == Lookup(s.pool.tables, x)
  }

  /** The target in hand stays so; only in the combined phase it may have lost its CPU blocks and restart. */
  ghost predicate Carried(s: Sys, s': Sys, c: Id) {
    && c in s.place && c in s'.place && s'.place[c] == s.place[c]
    && c in s.data && c in s'.data && InHand(s, s', c) && (!s.split ==> Unmoved(s, s', c))
  }

  /** Making room at the expense of victims at place `p` leaves the phase's lists meaningful. */
  lemma PhaseKept(s: Sys, s': Sys, q: Queue, scheduled: seq<Id>, delayed: seq<Id>, c: Id, p: Place, rest: seq<Id>)
    requires Phase(s, q, scheduled, delayed, Some(c)) && Kept(s, s', p) && VictimList(s', rest, p)
    requires p.AtPaused? || (p.AtDelayed? && q.QRunning?) || p.AtRunning?
    ensures Phase(s', q, scheduled, if p.AtDelayed? then rest else delayed, Some(c))
    ensures SameBatch(s, s') && Carried(s, s', c)
  {
    forall x | x in s.place
      ensures s'.place[x] == AtScheduled <==> s.place[x] == AtScheduled
      ensures s'.place[x] == AtBatch <==> s.place[x] == AtBatch
      ensures s'.place[x] == AtForwarded ==> s.place[x] == AtForwarded
      ensures s'.place[x] == AtCurrent <==> s.place[x] == AtCurrent
      ensures s'.place[x] == AtDelayed ==> s.place[x] == AtDelayed && Origin(q, s'.data[x].status)
      ensures !p.AtDelayed? && s.place[x] == AtDelayed ==> s'.place[x] == AtDelayed
      ensures s.place[x].AtScheduled? || s.place[x].AtBatch? ==> Unmoved(s, s', x)
      ensures s.place[x].AtCurrent? ==> Carried(s, s', x)
    {
      hide KeptAt, Victim;
      PhaseKeptAt(s, s', q, x, p, rest);
    }
    if p.AtDelayed? {
      VictimsAt(s', rest, p);
    }
    PhaseFrom(s, s', q, scheduled, delayed, if p.AtDelayed? then rest else delayed, c);
    BatchFrom(s, s');
  }

  lemma PhaseFrom(s: Sys, s': Sys, q: Queue, scheduled: seq<Id>, delayed: seq<Id>, delayed': seq<Id>, c: Id)
    requires Phase(s, q, scheduled, delayed, Some(c)) && s'.split == s.split && s'.place.Keys == s.place.Keys
    requires c in s.place && c in s'.data
    requires forall x :: x in s.place ==> (s'.place[x] == AtScheduled <==> s.place[x] == AtScheduled)
    requires forall x :: x in s.place ==> (s'.place[x] == AtBatch <==> s.place[x] == AtBatch)
    requires forall x :: x in s.place ==> (s'.place[x] == AtForwarded ==> s.place[x] == AtForwarded)
    requires forall x :: x in s.place ==> (s'.place[x] == AtCurrent <==> s.place[x] == AtCurrent)
    requires forall x :: x in s.place && x in s'.data && s'.place[x] == AtDelayed ==> Origin(q, s'.data[x].status)
    requires Lists(delayed', s'.place, AtDelayed) && Origin(q, s'.data[c].status)
    requires forall x :: x in scheduled ==> Unmoved(s, s', x)
    ensures Phase(s', q, scheduled, delayed', Some(c))
  {
  }

  lemma BatchFrom(s: Sys, s': Sys)
    requires forall x :: x in s.place && (s.place[x].AtScheduled? || s.place[x].AtBatch?) ==> Unmoved(s, s', x)
    ensures SameBatch(s, s')
  {
  }

  lemma VictimsAt(s: Sys, vs: seq<Id>, p: Place)
    requires VictimList(s, vs, p) && !p.AtPaused?
    ensures Lists(vs, s.place, p)
  {
    forall x ensures x in vs <==> x in s.place && s.place[x] == p {
      assert x in vs ==> Victim(s, x, p);
    }
  }

  lemma PhaseKeptAt(s: Sys, s': Sys, q: Queue, x: Id, p: Place, rest: seq<Id>)
    requires Kept(s, s', p) && x in s.place && VictimList(s', rest, p)
    requires p.AtPaused? || (p.AtDelayed? && q.QRunning?) || p.AtRunning?
    requires s.split <==> q.QCombined?
    requires s.place[x].AtDelayed? || s.place[x].AtCurrent? ==> Origin(q, s.data[x].status)
    ensures s'.place[x] == AtScheduled <==> s.place[x] == AtScheduled
    ensures s'.place[x] == AtBatch <==> s.place[x] == AtBatch
    ensures s'.place[x] == AtForwarded ==> s.place[x] == AtForwarded
    ensures s'.place[x] == AtCurrent <==> s.place[x] == AtCurrent
    ensures s'.place[x] == AtDelayed ==> s.place[x] == AtDelayed && Origin(q, s'.data[x].status)
    ensures !p.AtDelayed? && s.place[x] == AtDelayed ==> s'.place[x] == AtDelayed
    ensures s.place[x].AtScheduled? || s.place[x].AtBatch? ==> Unmoved(s, s', x)
    ensures s.place[x].AtCurrent? ==> Carried(s, s', x)
  {
    assert KeptAt(s, s', x, p);
    if p.AtDelayed? && s'.place[x] == AtDelayed {
      assert x in rest && Victim(s', x, p);
    }
  }

  /** Where `MakeRoom` stands, with target `c` still in hand. */
  ghost predicate Making(s0: Sys, s: Sys, r: Round, c: Id) {
    && Phase(s, r.q, r.scheduled, r.delayed, Some(c)) && VictimList(s, r.pre, AtPaused)
    && SameBatch(s0, s) && Carried(s0, s, c) && Fewer(s0, s, r.q)
    && DoneWith(s0.place, s.place, [])
  }

  /** The target in hand was itself preempted. */
  ghost predicate Yielded(s0: Sys, s: Sys, r: Round) {
    && Phase(s, r.q, r.scheduled, r.delayed, None) && VictimList(s, r.pre, AtPaused)
    && SameBatch(s0, s) && Fewer(s0, s, r.q)
    && DoneWith(s0.place, s.place, [])
  }

  /** Scheduling changes no request's tokens. */
  ghost predicate SameText(s: Sys, s': Sys) {
    && s'.data.Keys == s.data.Keys
    && forall x :: x in s.data ==> s'.data[x].Remains(s.data[x])
  }

  /** Nothing was added to the list being scheduled, nor to the one that a discard may move requests from. */
  ghost predicate Fewer(s: Sys, s': Sys, q: Queue) {
    && SameText(s, s')
    && s'.b == s.b && s'.limit == s.limit && s'.split == s.split && s'.place.Keys == s.place.Keys &&
      SameArenas(s.pool, s'.pool)
    && |s'.running| <= |s.running| && |s'.combined| <= |s.combined|
    && (!q.QRunning? ==> NoMore(s, s') && s'.running == s.running)
  }

  /** Of the known requests exactly those in `ids` have left the scheduler since, and none entered
      or left the batch of the earlier phases. */
  ghost predicate DoneWith(place: map<Id, Place>, place': map<Id, Place>, ids: seq<Id>) {
    forall x :: x in place && x in place' ==>
      (place'[x].AtDone? <==> place[x].AtDone? || x in ids) && (place'[x].AtBatch? <==> place[x].AtBatch?)
  }

  /** The state agrees with the local lists of a `_schedule` call. */
  ghost predicate At(s: Sys, r: Round) {
    && Phase(s, r.q, r.scheduled, r.delayed, r.cur)
    && VictimList(s, r.pre, AtPaused)
    && BatchTokens(s.data, r.scheduled) == r.tokens
  }

  /** The target was put into the batch with exactly its planned work. */
  ghost predicate Took(r0: Round, r: Round, c: Id, planned: SeqRec, data: map<Id, SeqRec>) {
    && r.scheduled == r0.scheduled + [c] && r.tokens == r0.tokens + planned.runningInflight && r.ignored == r0.ignored
    && c in data && data[c] == planned.(status := Status.Running)
  }

  /** The target was left for a later iteration, and nothing was preempted for it. */
  ghost predicate PutOff(r0: Round, r: Round, c: Id) {
    r == r0.(delayed := r0.delayed + [c], cur := None)
  }

  ghost predicate Skipped(r0: Round, r: Round) {
    r.scheduled == r0.scheduled && r.tokens == r0.tokens && r.ignored == r0.ignored
  }

  /** The target waits behind the other delayed ones, and nothing was scheduled. */
  ghost predicate Waited(r0: Round, r: Round, c: Id) {
    Skipped(r0, r) && r.delayed != [] && r.delayed[|r.delayed| - 1] == c
  }

  /** The target was itself preempted, after every request that may be preempted for it. */
  ghost predicate Lost(r0: Round, r: Round, running: seq<Id>, selfPreempt: bool) {
    Skipped(r0, r) && selfPreempt && r.pre == [] && r.delayed == [] && running == []
  }

  lemma PutOffIs(r0: Round, r: Round, c: Id)
    ensures r == r0.(delayed := r0.delayed + [c], cur := None) ==> PutOff(r0, r, c) && Waited(r0, r, c)
    ensures PutOff(r0, r, c) ==> r.delayed != []
  {
  }

  lemma TookOne(r0: Round, r: Round, c: Id, d: SeqRec, data: map<Id, SeqRec>)
    requires r == r0.(scheduled := r0.scheduled + [c], tokens := r0.tokens + d.runningInflight, cur := None)
    requires c in data && data[c] == d.(status := Status.Running)
    ensures Took(r0, r, c, d, data)
  {
  }

  lemma SettledSince(r0: Round, r1: Round, r: Round, c: Id, d: SeqRec, data: map<Id, SeqRec>)
    requires r1.scheduled == r0.scheduled && r1.tokens == r0.tokens && r1.ignored == r0.ignored
    ensures Took(r1, r, c, d, data) ==> Took(r0, r, c, d, data)
    ensures Waited(r1, r, c) ==> Waited(r0, r, c)
    ensures r.cur.None? && r == r1 ==> Skipped(r0, r)
  {
  }

  lemma LostOne(r0: Round, r: Round, running: seq<Id>, selfPreempt: bool)
    requires Skipped(r0, r) && selfPreempt && r.pre == [] && r.delayed == [] && running == []
    ensures Lost(r0, r, running, selfPreempt)
  {
  }

  /** The blocks that a target may swap in now. */
  function SwapPlan(d: SeqRec, swapLimit: int): int {
    Min(swapLimit, d.swapLength)
  }

  /** The tokens that a target may forward now: none before it is swapped in completely. */
  function TokenPlan(d: SeqRec, swapLimit: int, tokenLimit: int): int {
    if d.swapLength == SwapPlan(d, swapLimit) then Min(tokenLimit, d.inflight) else 0
  }

  lemma PlanFacts(d: SeqRec, swapLimit: int, tokenLimit: int)
    requires d.Sane() && swapLimit >= 0 && tokenLimit >= 0
    ensures var s, t := SwapPlan(d, swapLimit), TokenPlan(d, swapLimit, tokenLimit);
      0 <= s <= swapLimit && t <= tokenLimit && (t > 0 || s > 0 ==> Planned(d.Populate(0, s, t)))
  {
  }

  /** Within its limits a plan swaps as many blocks in as there are, and forwards as many tokens as there are, but
      none before the last block is swapped in. */
  lemma PlanLaws(d: SeqRec, swapLimit: int, tokenLimit: int)
    requires d.Sane() && swapLimit >= 0 && tokenLimit >= 0
    ensures var s, t := SwapPlan(d, swapLimit), TokenPlan(d, swapLimit, tokenLimit);
      && 0 <= s <= swapLimit && s <= d.swapLength && (s == swapLimit || s == d.swapLength)
      && 0 <= t <= tokenLimit && t <= d.inflight
      && (s < d.swapLength ==> t == 0) && (s == d.swapLength ==> t == tokenLimit || t == d.inflight)
      && d.Populate(0, s, t).Workload()
  {
  }

  /** The GPU blocks that target `c` needs for `n` blocks to swap in and `t` tokens to forward. */
  ghost function Need(s: Sys, c: Id, n: int, t: int): int {
    if c in s.data && s.b > 0 && Planned(s.data[c].Populate(0, n, t))
    then MemoryRequirement(s.data[c].Populate(0, n, t), s.b)
    else 0
  }

  /** The checks before any preemption that end the whole `_schedule` call: `need` blocks are not free,
      and preemption is not allowed, has no victim, or is over its limit. */
  predicate MustWait(free: nat, f: Flags, need: int, pre: seq<Id>, maxSwapOut: int) {
    && need > free
    && (|| !f.preemptIfNeed
        || (pre == [] && !f.selfPreempt)
        || (!f.selfPreempt && need - free > maxSwapOut && f.stopIfNoSwap))
  }

  lemma Waits(free: nat, f: Flags, need: int, pre: seq<Id>, maxSwapOut: int)
    requires MustWait(free, f, need, pre, maxSwapOut)
    ensures need > free
  {
  }

  lemma NeedIs(s: Sys, s1: Sys, c: Id, n: int, t: int)
    requires c in s.data && s.b > 0 && Planned(s.data[c].Populate(0, n, t)) && s1.b == s.b
    requires c in s1.data && s1.data[c] == s.data[c].Populate(0, n, t)
    ensures s1.data[c].Sane() && s1.data[c].Workload() && Need(s, c, n, t) == MemoryRequirement(s1.data[c], s.b)
    ensures Planned(s1.data[c]) && s1.data[c].resumeSwap == n && s1.data[c].runningInflight == t
  {
  }

  /** How a `_schedule` call goes on: the batch stays as planned, and what leaves is ignored. */
  ghost predicate Onward(s: Sys, r: Round, s': Sys, r': Round) {
    && r'.q == r.q && r.ignored <= r'.ignored
    && Frozen(s, s') && Fewer(s, s', r.q)
    && DoneWith(s.place, s'.place, r'.ignored[|r.ignored|..])
  }

  lemma OnwardTrans(s: Sys, r: Round, s1: Sys, r1: Round, s2: Sys, r2: Round)
    requires Onward(s, r, s1, r1) && Onward(s1, r1, s2, r2)
    ensures Onward(s, r, s2, r2)
  {
    FrozenTrans(s, s1, s2);
    var a, b, c := |r.ignored|, |r1.ignored|, |r2.ignored|;
    assert r2.ignored[a..] == r1.ignored[a..] + r2.ignored[b..];
  }

  lemma OnwardSelf(s: Sys, l: Log, r: Round)
    requires Sound(s, l)
    ensures Onward(s, r, s, r)
  {
  }

  /** How many targets are left; discarding swapped requests lengthens the waiting list but not this. */
  ghost function Left(s: Sys, q: Queue): nat {
    match q
    case QRunning => |s.running|
    case QSwapped => |s.swapped|
    case QWaiting => |s.waiting| + |s.swapped|
    case QCombined => |s.combined|
  }

  lemma OnwardLeft(s: Sys, r: Round, s': Sys, r': Round)
    requires Onward(s, r, s', r')
    ensures Left(s', r.q) <= Left(s, r.q)
  {
  }

  lemma PoppedLeft(s: Sys, s': Sys, c: Id, q: Queue)
    requires TargetsOf(s, q) != [] && PopStep(s, s', c, q)
    ensures Left(s', q) < Left(s, q)
  {
  }

  function Opening(q: Queue, pre: seq<Id>): Round {
    Round(q, [], [], [], pre, 0, None)
  }

  lemma OpeningFields(q: Queue, pre: seq<Id>)
    ensures Opening(q, pre) == Round(q, [], [], [], pre, 0, None)
  {
  }

  /** A delayed target forgets its planned work. */
  lemma WorkloadCleared(s: Sys, l: Log, s': Sys, x: Id, r: Round)
    requires Sound(s, l) && At(s, r) && x in r.delayed && r.cur.None?
    requires x in s.data && s' == s.(data := s.data[x := s.data[x].Cleared()])
    ensures Sound(s', l) && At(s', r) && Onward(s, r, s', r)
    ensures s'.data[x].Idle()
  {
    hide PoolOk, Exclusive, Sound, GoodAt, OthersSame, VictimList, Frozen, Phase, Queues, DoneWith;
    SoundKeys(s, l);
    DelayedKnown(s, l, x, r);
    OthersSameFrom(s, s', x);
    ClearedFrom(s, s', x, r);
    PreKept(s, s', r.pre, x);
    StepSame(s, l, s', x);
    FrozenOne(s, s', x);
    ScheduledTokens(s, s', r);
    DoneOne(s, s', x);
    assert r.ignored[|r.ignored|..] == [];
  }

  lemma ScheduledTokens(s: Sys, s': Sys, r: Round)
    requires Frozen(s, s') && Phase(s, r.q, r.scheduled, r.delayed, r.cur)
    ensures BatchTokens(s'.data, r.scheduled) == BatchTokens(s.data, r.scheduled)
  {
    FrozenTokens(s, s', r.scheduled);
  }

  lemma DelayedKnown(s: Sys, l: Log, x: Id, r: Round)
    requires Sound(s, l) && At(s, r) && x in r.delayed
    ensures x in s.place && x in s.data && s.place[x].AtDelayed? && GoodAt(s, x) && !InBatch(s.place, x)
    ensures Phase(s, r.q, r.scheduled, r.delayed, r.cur)
    ensures VictimList(s, r.pre, AtPaused) && BatchTokens(s.data, r.scheduled) == r.tokens
  {
  }

  lemma ClearedFrom(s: Sys, s': Sys, x: Id, r: Round)
    requires s.b > 0 && s.data.Keys == s.place.Keys && Queues(s)
    requires x in s.place && x in s.data && s.place[x].AtDelayed? && GoodAt(s, x)
    requires Phase(s, r.q, r.scheduled, r.delayed, r.cur)
    requires s' == s.(data := s.data[x := s.data[x].Cleared()])
    ensures Queues(s') && GoodAt(s', x) && s'.data[x].Cached() == s.data[x].Cached() && s'.data[x].Idle()
    ensures Phase(s', r.q, r.scheduled, r.delayed, r.cur) && !InBatch(s.place, x) && !InBatch(s'.place, x)
  {
    hide Queues, Phase, GoodAt;
    ClearedGood(s, s', x);
    ClearedQueues(s, s', x);
    ClearedPhase(s, s', x, r);
  }

  lemma ClearedGood(s: Sys, s': Sys, x: Id)
    requires s.b > 0 && x in s.place && x in s.data && s.place[x].AtDelayed? && GoodAt(s, x)
    requires s' == s.(data := s.data[x := s.data[x].Cleared()])
    ensures GoodAt(s', x) && s'.data[x].Cached() == s.data[x].Cached() && s'.data[x].Idle()
  {
    assert s.data[x].Cleared().Cleared() == s.data[x].Cleared();
  }

  lemma ClearedQueues(s: Sys, s': Sys, x: Id)
    requires s.data.Keys == s.place.Keys && Queues(s) && x in s.data && s.place[x].AtDelayed?
    requires s' == s.(data := s.data[x := s.data[x].Cleared()])
    ensures Queues(s')
  {
  }

  lemma ClearedPhase(s: Sys, s': Sys, x: Id, r: Round)
    requires s.data.Keys == s.place.Keys && x in s.data && s.place[x].AtDelayed?
    requires Phase(s, r.q, r.scheduled, r.delayed, r.cur) && s' == s.(data := s.data[x := s.data[x].Cleared()])
    ensures Phase(s', r.q, r.scheduled, r.delayed, r.cur)
  {
  }

  /** Victims are taken from the backs of three lists, the paused, the delayed and the running ones,
      and from none before the list in front of it is used up. */
  predicate InOrder(r0: Round, running0: seq<Id>, r: Round, running: seq<Id>) {
    && r.pre <= r0.pre && r.delayed <= r0.delayed && running <= running0
    && (r.delayed != r0.delayed ==> r.pre == [])
    && (running != running0 ==> r.pre == [] && r.delayed == [])
  }

  lemma InOrderSelf(r: Round, running: seq<Id>)
    ensures InOrder(r, running, r, running)
  {
  }

  lemma InOrderOne(r0: Round, running0: seq<Id>, r: Round, running: seq<Id>)
    ensures r.pre <= r0.pre && r.delayed == r0.delayed && running == running0 ==> InOrder(r0, running0, r, running)
    ensures r.pre == [] && r.delayed <= r0.delayed && running == running0 ==> InOrder(r0, running0, r, running)
    ensures r.pre == [] && r.delayed == [] && running <= running0 ==> InOrder(r0, running0, r, running)
  {
  }

  lemma InOrderNext(r0: Round, running0: seq<Id>, r1: Round, running1: seq<Id>, r: Round, running: seq<Id>)
    requires InOrder(r0, running0, r1, running1) && InOrder(r1, running1, r, running)
    ensures InOrder(r0, running0, r, running)
  {
  }

  lemma InOrderYield(r0: Round, running0: seq<Id>, r: Round, running: seq<Id>)
    requires InOrder(r0, running0, r, running)
    ensures InOrder(r0, running0, r.(cur := None), running)
  {
  }

  lemma MakingSplit(s0: Sys, s: Sys, r: Round, c: Id)
    requires Making(s0, s, r, c)
    ensures s.split <==> r.q.QCombined?
  {
  }

  lemma MakingStart(s: Sys, l: Log, r: Round, c: Id)
    requires Sound(s, l) && At(s, r) && r.cur == Some(c)
    ensures Making(s, s, r, c)
  {
    hide Sound, VictimList, Phase, BatchTokens, SameBatch, Fewer, Carried;
    CurrentBrief(s, l, r, c);
    BatchSelf(s, l);
    FewerSelf(s, l, r.q);
    CarriedSelf(s, c);
  }

  lemma BatchSelf(s: Sys, l: Log)
    requires Sound(s, l)
    ensures SameBatch(s, s)
  {
    hide PoolOk, Exclusive, Refines, Journal, AllGood, Queues;
  }

  lemma FewerSelf(s: Sys, l: Log, q: Queue)
    requires Sound(s, l)
    ensures Fewer(s, s, q)
  {
    hide PoolOk, Exclusive, Refines, Journal, AllGood, Queues;
  }

  lemma CarriedSelf(s: Sys, c: Id)
    requires c in s.place && c in s.data
    ensures Carried(s, s, c)
  {
  }

  lemma MakingAt(s0: Sys, s: Sys, r0: Round, r: Round, c: Id)
    requires At(s0, r0) && r0.cur == Some(c) && Making(s0, s, r, c)
    requires r == r0.(delayed := r.delayed, pre := r.pre)
    ensures At(s, r) && Onward(s0, r0, s, r) && Carried(s0, s, c)
  {
    SameBatchFrozen(s0, s);
    FrozenTokens(s0, s, r.scheduled);
  }

  lemma YieldedAt(s0: Sys, s: Sys, r0: Round, r: Round)
    requires At(s0, r0) && r0.cur.Some? && Yielded(s0, s, r)
    requires r == r0.(delayed := r.delayed, pre := r.pre)
    ensures At(s, r.(cur := None)) && Onward(s0, r0, s, r.(cur := None))
  {
    SameBatchFrozen(s0, s);
    FrozenTokens(s0, s, r.scheduled);
  }

  /** Restarting the target in hand shows in its planned work. */
  lemma CarriedRec(s: Sys, s': Sys, c: Id)
    requires Carried(s, s', c)
    ensures c in s.data && c in s'.data
    ensures s'.data[c] != s.data[c] ==> s.split && s'.data[c] == s.data[c].Restarted().(status := Status.Waiting)
    ensures s'.data[c] == s.data[c] && Planned(s.data[c]) ==> Unmoved(s, s', c)
  {
  }

  lemma SameBatchFrozen(s: Sys, s': Sys)
    requires SameBatch(s, s')
    ensures Frozen(s, s')
  {
    forall x | InBatch(s.place, x) ensures FrozenAt(s, s', x) {
      assert Unmoved(s, s', x);
    }
  }

  lemma FrozenTrans(s: Sys, s1: Sys, s2: Sys)
    requires Frozen(s, s1) && Frozen(s1, s2)
    ensures Frozen(s, s2)
  {
    forall x | InBatch(s.place, x) ensures FrozenAt(s, s2, x) {
      assert FrozenAt(s, s1, x) && FrozenAt(s1, s2, x);
    }
  }

  lemma FrozenTokens(s: Sys, s': Sys, scheduled: seq<Id>)
    requires Frozen(s, s') && Lists(scheduled, s.place, AtScheduled)
    ensures BatchTokens(s'.data, scheduled) == BatchTokens(s.data, scheduled)
  {
    forall x | x in scheduled ensures Batched(s'.data, x) == Batched(s.data, x) {
      assert FrozenAt(s, s', x);
    }
    BatchTokensSame(s.data, s'.data, scheduled);
  }

  lemma MakingVictims(s0: Sys, s: Sys, l: Log, r: Round, c: Id)
    requires Sound(s, l) && Making(s0, s, r, c)
    ensures VictimList(s, r.pre, AtPaused)
    ensures r.q.QRunning? ==>
      && VictimList(s, r.delayed, AtDelayed) && VictimList(s, s.running, AtRunning) && VictimList(s, [c], AtCurrent)
      && c in s.pool.tables && |OnDevice(s.pool.tables[c], GPU)| >= 1 && !s.split
  {
    hide Sound, VictimList, AllGood, Queues;
    if r.q.QRunning? {
      RunningVictims(s, l, r, c);
      assert Victim(s, c, AtCurrent);
      VictimFacts(s, l, c, AtCurrent);
    }
  }

  lemma RunningVictims(s: Sys, l: Log, r: Round, c: Id)
    requires Sound(s, l) && Phase(s, r.q, r.scheduled, r.delayed, Some(c)) && r.q.QRunning?
    ensures VictimList(s, r.delayed, AtDelayed) && VictimList(s, s.running, AtRunning) && VictimList(s, [c], AtCurrent)
    ensures c in s.data && s.data[c].status.Running? && !s.split && s.place[c].AtCurrent?
  {
    forall x | x in s.running ensures Victim(s, x, AtRunning) {
      assert GoodAt(s, x);
    }
    assert Victim(s, c, AtCurrent);
  }

  /** The local lists once the victims at place `p` are down to `rest`. */
  function After(r: Round, p: Place, rest: seq<Id>): Round {
    if p.AtDelayed? then r.(delayed := rest) else if p.AtPaused? then r.(pre := rest) else r
  }

  lemma AfterIs(r: Round, rest: seq<Id>)
    ensures After(r, AtPaused, rest) == r.(pre := rest) && After(r, AtDelayed, rest) == r.(delayed := rest)
    ensures After(r, AtRunning, rest) == r
  {
  }

  lemma MakingStep(s0: Sys, s: Sys, s': Sys, r: Round, c: Id, p: Place, rest: seq<Id>)
    requires Making(s0, s, r, c)
    requires Kept(s, s', p) && VictimList(s', rest, p) && SameArenas(s.pool, s'.pool)
    requires p.AtPaused? || (p.AtDelayed? && r.q.QRunning?) || p.AtRunning?
    requires !p.AtPaused? ==> r.pre == [] && r.q.QRunning?
    requires p.AtPaused? ==> NoMore(s, s')
    requires s'.combined == s.combined && if p.AtRunning? then s'.running <= s.running else s'.running == s.running
    ensures Making(s0, s', After(r, p, rest), c)
  {
    hide KeptAt, VictimList, Phase, SameBatch, SameText, DoneWith, Carried, SameArenas;
    PhaseKept(s, s', r.q, r.scheduled, r.delayed, c, p, rest);
    SameBatchTrans(s0, s, s');
    CarriedTrans(s0, s, s', c);
    NoVictims(s');
    KeptDone(s, s', p);
    KeptText(s0, s, s', p);
    ArenasTrans(s0.pool, s.pool, s'.pool);
    DoneTrans(s0.place, s.place, s'.place);
  }

  lemma NoVictims(s: Sys)
    ensures VictimList(s, [], AtPaused)
  {
  }

  lemma CarriedTrans(s: Sys, s1: Sys, s2: Sys, c: Id)
    requires Carried(s, s1, c) && Carried(s1, s2, c) && s1.split == s.split
    ensures Carried(s, s2, c)
  {
    hide InHand;
    InHandTrans(s, s1, s2, c);
  }

  lemma DoneTrans(place: map<Id, Place>, place1: map<Id, Place>, place2: map<Id, Place>)
    requires place1.Keys == place.Keys && DoneWith(place, place1, []) && DoneWith(place1, place2, [])
    ensures DoneWith(place, place2, [])
  {
  }

  lemma KeptText(s0: Sys, s: Sys, s': Sys, p: Place)
    requires SameText(s0, s) && Kept(s, s', p)
    ensures SameText(s0, s')
  {
    forall x | x in s0.data ensures s'.data[x].Remains(s0.data[x]) {
      assert KeptAt(s, s', x, p);
    }
  }

  lemma KeptDone(s: Sys, s': Sys, p: Place)
    requires Kept(s, s', p) && !p.AtDone? && !p.AtBatch?
    ensures DoneWith(s.place, s'.place, [])
  {
    forall x | x in s.place
      ensures (s'.place[x].AtDone? <==> s.place[x].AtDone?) && (s'.place[x].AtBatch? <==> s.place[x].AtBatch?)
    {
      assert KeptAt(s, s', x, p);
    }
  }

  lemma SameBatchTrans(s0: Sys, s: Sys, s': Sys)
    requires SameBatch(s0, s) && SameBatch(s, s')
    ensures SameBatch(s0, s')
  {
    forall x | x in s0.place && (s0.place[x].AtScheduled? || s0.place[x].AtBatch?) ensures Unmoved(s0, s', x) {
      assert Unmoved(s0, s, x) && Unmoved(s, s', x);
    }
  }

  /** Preempting the target in hand takes all its GPU blocks, so it leaves its place. */
  lemma YieldedFrom(s0: Sys, s: Sys, s': Sys, r: Round, c: Id, rest: seq<Id>)
    requires Making(s0, s, r, c) && r.pre == [] && r.q.QRunning?
    requires Kept(s, s', AtCurrent) && SameArenas(s.pool, s'.pool)
    requires s'.combined == s.combined && s'.running == s.running
    requires VictimList(s', rest, AtCurrent) && rest <= [c]
    requires c in s.pool.tables
    requires rest == [c] ==> TooBig(s, [c], |OnDevice(s.pool.tables[c], GPU)|)
    ensures Yielded(s0, s', r) && rest == []
  {
    hide KeptAt, Phase, SameBatch, SameText;
    assert rest == [];
    YieldedPhase(s, s', r, c);
    SameBatchTrans(s0, s, s');
    KeptDone(s, s', AtCurrent);
    KeptText(s0, s, s', AtCurrent);
  }

  lemma YieldedPhase(s: Sys, s': Sys, r: Round, c: Id)
    requires Phase(s, r.q, r.scheduled, r.delayed, Some(c)) && r.q.QRunning? && Kept(s, s', AtCurrent)
    requires VictimList(s', [], AtCurrent)
    ensures Phase(s', r.q, r.scheduled, r.delayed, None) && SameBatch(s, s')
  {
    forall x | x in s.place
      ensures s'.place[x] == AtScheduled <==> s.place[x] == AtScheduled
      ensures s'.place[x] == AtDelayed <==> s.place[x] == AtDelayed
      ensures s'.place[x] != AtCurrent && (s'.place[x] == AtBatch ==> s.place[x] == AtBatch)
      ensures s'.place[x] == AtForwarded ==> s.place[x] == AtForwarded
      ensures s'.place[x] == AtDelayed ==> Origin(r.q, s'.data[x].status)
      ensures s.place[x].AtScheduled? || s.place[x].AtBatch? ==> Unmoved(s, s', x)
    {
      YieldedAtPlace(s, s', r, c, x);
    }
  }

  lemma YieldedAtPlace(s: Sys, s': Sys, r: Round, c: Id, x: Id)
    requires Phase(s, r.q, r.scheduled, r.delayed, Some(c)) && r.q.QRunning? && Kept(s, s', AtCurrent)
    requires VictimList(s', [], AtCurrent) && x in s.place
    ensures s'.place[x] == AtScheduled <==> s.place[x] == AtScheduled
    ensures s'.place[x] == AtDelayed <==> s.place[x] == AtDelayed
    ensures s'.place[x] != AtCurrent && (s'.place[x] == AtBatch ==> s.place[x] == AtBatch)
    ensures s'.place[x] == AtForwarded ==> s.place[x] == AtForwarded
    ensures s'.place[x] == AtDelayed ==> Origin(r.q, s'.data[x].status)
    ensures s.place[x].AtScheduled? || s.place[x].AtBatch? ==> Unmoved(s, s', x)
  {
    hide InHand;
    assert KeptAt(s, s', x, AtCurrent);
  }

  /** A workload that is not empty. */
  ghost predicate Planned(d: SeqRec) {
    d.Sane() && d.Workload() && (d.resumeSwap > 0 || d.runningInflight > 0)
  }

  lemma CurrentFacts(s: Sys, l: Log, r: Round, c: Id)
    requires Sound(s, l) && At(s, r) && r.cur == Some(c)
    ensures c in s.place && c in s.data && s.place[c].AtCurrent? && s.b > 0 && Exclusive(s.pool.tables)
    ensures s.data.Keys == s.place.Keys && Queues(s) && GoodAt(s, c) && c !in s.paused
    ensures Phase(s, r.q, r.scheduled, r.delayed, Some(c)) && VictimList(s, r.pre, AtPaused)
    ensures BatchTokens(s.data, r.scheduled) == r.tokens
    ensures Layout(s.b, s.data[c].Cleared(), TableOf(s.pool.tables, c)) && s.data[c].resumeDiscard == 0
  {
    assert GoodAt(s, c);
  }

  lemma CurrentBrief(s: Sys, l: Log, r: Round, c: Id)
    requires Sound(s, l) && At(s, r) && r.cur == Some(c)
    ensures s.b > 0 && c in s.data && c in s.place && s.place[c].AtCurrent?
    ensures c !in s.paused && Exclusive(s.pool.tables) && s.data.Keys == s.place.Keys
    ensures Layout(s.b, s.data[c].Cleared(), TableOf(s.pool.tables, c))
    ensures s.data[c].Sane() && s.data[c].discardLength == 0 && s.data[c].swapLength >= 0 && s.data[c].inflight >= 1
  {
    CurrentFacts(s, l, r, c);
  }

  /** `c` got the blocks of its planned work. */
  ghost predicate AllocStep(s: Sys, l: Log, s1: Sys, l1: Log, c: Id, m: map<nat, nat>) {
    && c in s.data && s.b > 0 && c in s1.pool.tables
    && PoolOk(s1.pool) && Exclusive(s1.pool.tables) && SameArenas(s.pool, s1.pool)
    && s1 == s.(pool := s1.pool)
    && s1.pool.tables == s.pool.tables[c := s1.pool.tables[c]]
    && PendingLayout(s.b, s.data[c], s1.pool.tables[c])
    && Moved(s.pool.tables, TableOf(s.pool.tables, c), s1.pool.tables[c], CPU, m)
    && l1 == LoggedIn(l, TableOf(s.pool.tables, c), s1.pool.tables[c], m)
  }

  lemma CurrentNeed(s: Sys, c: Id)
    requires c in s.data && Planned(s.data[c])
    ensures s.data[c].Sane() && s.data[c].Workload()
  {
  }

  lemma AllocFields(s: Sys, l: Log, s1: Sys, l1: Log, c: Id, m: map<nat, nat>)
    requires AllocStep(s, l, s1, l1, c, m)
    ensures s1 == s.(pool := s1.pool) && c in s1.pool.tables && s1.pool.tables == s.pool.tables[c := s1.pool.tables[c]]
    ensures s1.data == s.data && s1.place == s.place && s1.paused == s.paused
  {
  }

  lemma Admitted(s: Sys, l: Log, s1: Sys, s': Sys, l': Log, c: Id, m: map<nat, nat>, r: Round)
    requires Sound(s, l) && At(s, r) && r.cur == Some(c)
    requires AllocStep(s, l, s1, l', c, m) && Planned(s.data[c])
    requires c in s1.data
    requires s' == s1.(data := s1.data[c := s1.data[c].(status := Status.Running)], place := s1.place[c := AtScheduled])
    ensures c in s.data && Sound(s', l')
    ensures var r' := r.(scheduled := r.scheduled + [c], tokens := r.tokens + s.data[c].runningInflight, cur := None);
      At(s', r') && Onward(s, r, s', r')
  {
    hide Moved, PoolOk, Exclusive, Layout, Queues, Sound, Phase, VictimList, GoodAt, OthersSame, Planned, PendingLayout;
    hide Frozen, BatchTokens, DoneWith;
    CurrentFacts(s, l, r, c);
    OthersSameFrom(s, s', c);
    AdmittedGood(s, s', c);
    CurrentFresh(s, c);
    AdmittedQueues(s, s', c);
    AdmittedPhase(s, s', c, r.q, r.scheduled, r.delayed, r.pre);
    StepIn(s, l, s', c, m);
    FrozenOne(s, s', c);
    AdmittedTokens(s, s', c, r);
    DoneOne(s, s', c);
    assert r.ignored[|r.ignored|..] == [];
  }

  lemma DoneOne(s: Sys, s': Sys, c: Id)
    requires OthersSame(s, s', c) && !s.place[c].AtDone? && !s.place[c].AtBatch? && !s'.place[c].AtBatch?
    ensures DoneWith(s.place, s'.place, if s'.place[c].AtDone? then [c] else [])
  {
    hide PoolOk, Exclusive, Lookup;
    forall x | x in s.place && x != c ensures s'.place[x] == s.place[x] {
      assert SameAt(s, s', x);
    }
  }

  lemma FrozenOne(s: Sys, s': Sys, c: Id)
    requires OthersSame(s, s', c) && !InBatch(s.place, c)
    ensures Frozen(s, s')
  {
    forall x | InBatch(s.place, x) ensures FrozenAt(s, s', x) {
      assert SameAt(s, s', x);
    }
  }

  lemma AdmittedTokens(s: Sys, s': Sys, c: Id, r: Round)
    requires Frozen(s, s') && Phase(s, r.q, r.scheduled, r.delayed, Some(c))
    requires BatchTokens(s.data, r.scheduled) == r.tokens
    requires c in s.data && c in s'.data && s'.data[c] == s.data[c].(status := Status.Running)
    requires s.data[c].resumeDiscard == 0
    ensures BatchTokens(s'.data, r.scheduled + [c]) == r.tokens + s.data[c].runningInflight
  {
    FrozenTokens(s, s', r.scheduled);
    BatchTokensConcat(s'.data, r.scheduled, [c]);
  }

  lemma AdmittedGood(s: Sys, s': Sys, c: Id)
    requires s.b > 0 && c in s.data && Planned(s.data[c])
    requires c in s'.pool.tables && c in s.place && s.place[c].AtCurrent?
    requires s'.b == s.b && s'.limit == s.limit && c in s'.data && c in s'.place && s'.place[c].AtScheduled?
    requires Layout(s.b, s.data[c].Cleared(), TableOf(s.pool.tables, c))
    requires s'.data[c] == s.data[c].(status := Status.Running)
    requires PendingLayout(s.b, s.data[c], s'.pool.tables[c])
    ensures GoodAt(s', c) && InBatch(s'.place, c) && !InBatch(s.place, c)
    ensures s'.data[c].Cached() == s.data[c].Cached()
  {
    var d := s.data[c];
    CeilDivMono(d.Cached(), d.Cached() + d.runningInflight, s.b);
    CeilDivBounds(d.Cached() + d.runningInflight, s.b);
  }

  lemma CurrentFresh(s: Sys, c: Id)
    requires s.b > 0 && c in s.place && c in s.data && s.place[c].AtCurrent? && GoodAt(s, c)
    ensures s.data[c].status.Waiting? ==> s.data[c].Cached() == 0
  {
  }

  /** A target that leaves the scheduler's hands for the batch or a local list is on none of the scheduler's lists. */
  lemma TargetElsewhere(s: Sys, c: Id, p: Place)
    requires s.data.Keys == s.place.Keys && Queues(s) && c in s.place && s.place[c].AtCurrent?
    requires p.AtScheduled? || p.AtDelayed? || p.AtDone?
    ensures ListsRunning(s.running, s.place[c := p]) && ListsPaused(s.paused, s.place[c := p])
    ensures Lists(s.combined, s.place[c := p], AtCombined)
    ensures !s.split ==> Lists(s.waiting, s.place[c := p], AtWaiting) && Lists(s.swapped, s.place[c := p], AtSwapped)
  {
    hide Registers, Lists, ListsRunning, ListsPaused;
    RunningListElsewhere(s.running, s.place, c, p);
    PausedElsewhere(s.paused, s.place, c, p);
    ListsElsewhere(s.combined, s.place, AtCombined, c, p);
    if !s.split {
      ListsElsewhere(s.waiting, s.place, AtWaiting, c, p);
      ListsElsewhere(s.swapped, s.place, AtSwapped, c, p);
    }
  }

  lemma AdmittedQueues(s: Sys, s': Sys, c: Id)
    requires s.data.Keys == s.place.Keys && Queues(s) && c in s.place && s.place[c].AtCurrent?
    requires s.data[c].status.Waiting? ==> s.data[c].Cached() == 0
    requires s' == s.(pool := s'.pool, data := s.data[c := s.data[c].(status := Status.Running)],
      place := s.place[c := AtScheduled])
    ensures Queues(s')
  {
    hide Registers, Lists, ListsRunning, ListsPaused;
    TargetElsewhere(s, c, AtScheduled);
    if s.split {
      AdmittedRegisters(s, s', c);
    }
  }

  lemma AdmittedRegisters(s: Sys, s': Sys, c: Id)
    requires s.data.Keys == s.place.Keys && Queues(s) && c in s.place && s.place[c].AtCurrent?
    requires s.data[c].status.Waiting? ==> s.data[c].Cached() == 0
    requires s' == s.(pool := s'.pool, data := s.data[c := s.data[c].(status := Status.Running)],
      place := s.place[c := AtScheduled])
    requires s.split
    ensures Registers(s')
  {
  }

  lemma AdmittedPhase(s: Sys, s': Sys, c: Id, q: Queue, scheduled: seq<Id>, delayed: seq<Id>, pre: seq<Id>)
    requires Phase(s, q, scheduled, delayed, Some(c)) && VictimList(s, pre, AtPaused)
    requires c in s.data && c in s.place && s.place[c].AtCurrent?
    requires s.data[c].status.Waiting? ==> s.data[c].Cached() == 0
    requires s' == s.(pool := s'.pool, data := s.data[c := s.data[c].(status := Status.Running)],
      place := s.place[c := AtScheduled])
    ensures Phase(s', q, scheduled + [c], delayed, None) && VictimList(s', pre, AtPaused)
  {
    ListsAppend(scheduled, s.place, AtScheduled, c);
    forall v | v in pre ensures Victim(s', v, AtPaused) {
      assert Victim(s, v, AtPaused);
    }
  }

  ghost function TargetsOf(s: Sys, q: Queue): seq<Id> {
    match q
    case QRunning => s.running
    case QSwapped => s.swapped
    case QWaiting => s.waiting
    case QCombined => s.combined
  }

  lemma Popped(s: Sys, l: Log, s': Sys, c: Id, r: Round)
    requires Sound(s, l) && At(s, r) && r.cur.None?
    requires TargetsOf(s, r.q) != [] && c == TargetsOf(s, r.q)[0]
    requires PopStep(s, s', c, r.q)
    ensures Sound(s', l) && At(s', r.(cur := Some(c))) && Onward(s, r, s', r.(cur := Some(c)))
  {
    hide *;
    SoundKeys(s, l);
    AtFields(s, r);
    PoppedFrom(s, s', c, r.q, r.scheduled, r.delayed, l);
    PopFields(s, s', c, r.q);
    OthersSameFrom(s, s', c);
    PreKept(s, s', r.pre, c);
    StepSame(s, l, s', c);
    FrozenOne(s, s', c);
    DoneOne(s, s', c);
    var r' := r.(cur := Some(c));
    AtFrom(s', r');
    OnwardFrom(s, r, s', r');
  }

  lemma AtFields(s: Sys, r: Round)
    requires At(s, r)
    ensures Phase(s, r.q, r.scheduled, r.delayed, r.cur) && VictimList(s, r.pre, AtPaused)
    ensures BatchTokens(s.data, r.scheduled) == r.tokens
  {
  }

  lemma AtFrom(s: Sys, r: Round)
    requires Phase(s, r.q, r.scheduled, r.delayed, r.cur) && VictimList(s, r.pre, AtPaused)
    requires BatchTokens(s.data, r.scheduled) == r.tokens
    ensures At(s, r)
  {
  }

  lemma OnwardFrom(s: Sys, r: Round, s': Sys, r': Round)
    requires r'.q == r.q && r'.ignored == r.ignored && Frozen(s, s')
    requires Fewer(s, s', r.q) && DoneWith(s.place, s'.place, [])
    ensures Onward(s, r, s', r')
  {
    assert r.ignored[|r.ignored|..] == [];
  }

  lemma PopFields(s: Sys, s': Sys, c: Id, q: Queue)
    requires PopStep(s, s', c, q) && s.data.Keys == s.place.Keys && c in s.place
    ensures s'.b == s.b && s'.limit == s.limit && s'.pool == s.pool && s'.data == s.data && s'.paused == s.paused
    ensures s'.split == s.split && c in s'.place && s'.place == s.place[c := s'.place[c]] && s'.place[c] == AtCurrent
    ensures Fewer(s, s', q) && c in s'.data && s'.data == s.data[c := s'.data[c]]
    ensures s'.pool.tables - {c} == s.pool.tables - {c} && s'.paused - {c} == s.paused - {c}
    ensures s'.data[c].Cached() == s.data[c].Cached() && !s'.place[c].AtDone? && !s'.place[c].AtBatch?
    ensures !InBatch(s'.place, c)
  {
    ArenasSame(s.pool);
  }

  ghost predicate PopStep(s: Sys, s': Sys, c: Id, q: Queue)
  {
    && TargetsOf(s, q) != []
    && var t := TargetsOf(s, q)[1..];
    s' == match q
      case QRunning => s.(running := t, place := s.place[c := AtCurrent])
      case QSwapped => s.(swapped := t, place := s.place[c := AtCurrent])
      case QWaiting => s.(waiting := t, place := s.place[c := AtCurrent])
      case QCombined => s.(combined := t, place := s.place[c := AtCurrent])
  }

  lemma PreKept(s: Sys, s': Sys, pre: seq<Id>, c: Id)
    requires VictimList(s, pre, AtPaused) && s'.split == s.split
    requires OthersSame(s, s', c) && c in s.place && !s.place[c].AtPaused?
    ensures VictimList(s', pre, AtPaused)
  {
    forall v | v in pre ensures Victim(s', v, AtPaused) {
      assert Victim(s, v, AtPaused) && SameAt(s, s', v);
    }
  }

  lemma PoppedFrom(s: Sys, s': Sys, c: Id, q: Queue, scheduled: seq<Id>, delayed: seq<Id>, l: Log)
    requires Sound(s, l) && Phase(s, q, scheduled, delayed, None)
    requires TargetsOf(s, q) != [] && c == TargetsOf(s, q)[0]
    requires PopStep(s, s', c, q)
    ensures c in s.place && c in s.data && !InBatch(s.place, c)
    ensures s'.b > 0 && c in s'.place && c in s'.data && s'.data.Keys == s'.place.Keys
    ensures GoodAt(s', c)
    ensures !s.place[c].AtPaused? && !s.place[c].AtDone? && !s.place[c].AtBatch?
    ensures Queues(s') && Phase(s', q, scheduled, delayed, Some(c))
  {
    hide PoolOk, Sound, GoodAt, Phase, Queues, Registers;
    SoundKeys(s, l);
    PoppedPlace(s, l, c, q, scheduled, delayed);
    PoppedQueues(s, s', c, q);
    PoppedPhase(s, s', c, q, scheduled, delayed);
    PoppedGood(s, s', c, q);
  }

  predicate TargetPlace(q: Queue, p: Place) {
    match q
    case QRunning => p.AtRunning?
    case QSwapped => p.AtSwapped?
    case QWaiting => p.AtWaiting?
    case QCombined => p.AtCombined?
  }

  lemma PoppedPlace(s: Sys, l: Log, c: Id, q: Queue, scheduled: seq<Id>, delayed: seq<Id>)
    requires Sound(s, l) && Phase(s, q, scheduled, delayed, None) && TargetsOf(s, q) != [] && c == TargetsOf(s, q)[0]
    ensures c in s.place && c in s.data && GoodAt(s, c) && TargetPlace(q, s.place[c]) && (q.QCombined? <==> s.split)
    ensures NoDup(TargetsOf(s, q))
  {
    assert c in TargetsOf(s, q);
  }

  lemma PoppedGood(s: Sys, s': Sys, c: Id, q: Queue)
    requires s.b > 0 && s'.b == s.b && s'.limit == s.limit
    requires c in s.place && c in s.data && c in s'.place && c in s'.data
    requires GoodAt(s, c) && TargetPlace(q, s.place[c]) && s'.place[c].AtCurrent?
    requires s'.data == s.data && s'.pool == s.pool && s'.paused == s.paused
    ensures GoodAt(s', c)
  {
  }

  lemma PoppedPhase(s: Sys, s': Sys, c: Id, q: Queue, scheduled: seq<Id>, delayed: seq<Id>)
    requires Phase(s, q, scheduled, delayed, None) && s.b > 0
    requires c in s.place && c in s.data && TargetPlace(q, s.place[c]) && GoodAt(s, c)
    requires s'.place == s.place[c := AtCurrent] && s'.data == s.data && s'.split == s.split
    ensures Phase(s', q, scheduled, delayed, Some(c))
  {
  }

  lemma PoppedQueues(s: Sys, s': Sys, c: Id, q: Queue)
    requires s.data.Keys == s.place.Keys && Queues(s) && (q.QCombined? <==> s.split)
    requires TargetsOf(s, q) != [] && c == TargetsOf(s, q)[0] && c in s.place && TargetPlace(q, s.place[c])
    requires PopStep(s, s', c, q)
    ensures Queues(s')
  {
    hide Registers, Lists, ListsRunning, NoDup;
    var place := s.place;
    if q.QRunning? { PoppedRunning(s.running, place); } else { RunningElsewhere(s.running, place, c, q); }
    match q {
      case QRunning =>
        ListsElsewhere(s.combined, place, AtCombined, c, AtCurrent);
        ListsElsewhere(s.waiting, place, AtWaiting, c, AtCurrent);
        ListsElsewhere(s.swapped, place, AtSwapped, c, AtCurrent);
      case QSwapped =>
        ListsElsewhere(s.combined, place, AtCombined, c, AtCurrent);
        ListsElsewhere(s.waiting, place, AtWaiting, c, AtCurrent);
        ListsPop(s.swapped, place, AtSwapped, AtCurrent);
      case QWaiting =>
        ListsElsewhere(s.combined, place, AtCombined, c, AtCurrent);
        ListsPop(s.waiting, place, AtWaiting, AtCurrent);
        ListsElsewhere(s.swapped, place, AtSwapped, c, AtCurrent);
      case QCombined =>
        ListsPop(s.combined, place, AtCombined, AtCurrent);
        PoppedRegisters(s, s', c);
    }
  }

  lemma PoppedRunning(l: seq<Id>, place: map<Id, Place>)
    requires ListsRunning(l, place) && l != []
    ensures ListsRunning(l[1..], place[l[0] := AtCurrent])
  {
    assert l == [l[0]] + l[1..];
    assert l[0] !in l[1..];
  }

  lemma RunningElsewhere(l: seq<Id>, place: map<Id, Place>, c: Id, q: Queue)
    requires ListsRunning(l, place) && c in place && TargetPlace(q, place[c]) && !q.QRunning?
    ensures ListsRunning(l, place[c := AtCurrent])
  {
  }

  lemma PoppedRegisters(s: Sys, s': Sys, c: Id)
    requires s.data.Keys == s.place.Keys && Registers(s) && c in s.place && s.place[c].AtCombined?
    requires s' == s.(combined := s'.combined, place := s.place[c := AtCurrent])
    ensures Registers(s')
  {
  }

  lemma Resettled(s: Sys, l: Log, s': Sys, c: Id, p: Place, r: Round)
    requires Sound(s, l) && At(s, r) && r.cur == Some(c)
    requires p.AtDelayed? || (p.AtDone? && c in s.data && s.limit < s.data[c].Len())
    requires c in s.data && s' == s.(place := s.place[c := p],
      data := if p.AtDone? then s.data[c := s.data[c].(status := FinishedIgnored)] else s.data)
    ensures Sound(s', l)
    ensures var r' := if p.AtDone? then r.(ignored := r.ignored + [c], cur := None)
                      else r.(delayed := r.delayed + [c], cur := None);
      At(s', r') && Onward(s, r, s', r')
  {
    hide PoolOk, Exclusive, Sound, GoodAt, OthersSame, VictimList, Frozen, Phase, Queues, DoneWith;
    CurrentFacts(s, l, r, c);
    SoundKeys(s, l);
    ResettledFrom(s, s', c, p, r.q, r.scheduled, r.delayed);
    OthersSameFrom(s, s', c);
    PreKept(s, s', r.pre, c);
    StepSame(s, l, s', c);
    FrozenOne(s, s', c);
    PhaseTokens(s, s', r, c);
    DoneOne(s, s', c);
    assert r.ignored[|r.ignored|..] == [] && (r.ignored + [c])[|r.ignored|..] == [c];
  }

  lemma PhaseTokens(s: Sys, s': Sys, r: Round, c: Id)
    requires Frozen(s, s') && Phase(s, r.q, r.scheduled, r.delayed, Some(c))
    ensures BatchTokens(s'.data, r.scheduled) == BatchTokens(s.data, r.scheduled)
  {
    FrozenTokens(s, s', r.scheduled);
  }

  lemma ResettledFrom(s: Sys, s': Sys, c: Id, p: Place, q: Queue, scheduled: seq<Id>, delayed: seq<Id>)
    requires s.b > 0 && s.data.Keys == s.place.Keys && Queues(s)
    requires c in s.place && s.place[c].AtCurrent? && GoodAt(s, c)
    requires Phase(s, q, scheduled, delayed, Some(c))
    requires p.AtDelayed? || (p.AtDone? && c in s.data && s.limit < s.data[c].Len())
    requires c in s.data && s' == s.(place := s.place[c := p],
      data := if p.AtDone? then s.data[c := s.data[c].(status := FinishedIgnored)] else s.data)
    ensures Queues(s') && GoodAt(s', c) && !InBatch(s.place, c) && s'.data[c].Cached() == s.data[c].Cached()
    ensures Phase(s', q, scheduled, if p.AtDone? then delayed else delayed + [c], None)
  {
    hide PoolOk, GoodAt, Phase, Queues, Registers;
    ResettledQueues(s, s', c, p);
    ResettledPhase(s, s', c, p, q, scheduled, delayed);
    ResettledGood(s, s', c, p);
  }

  lemma ResettledQueues(s: Sys, s': Sys, c: Id, p: Place)
    requires s.data.Keys == s.place.Keys && Queues(s) && c in s.place && s.place[c].AtCurrent?
    requires p.AtDelayed? || (p.AtDone? && c in s.data && s.limit < s.data[c].Len())
    requires c in s.data && s' == s.(place := s.place[c := p],
      data := if p.AtDone? then s.data[c := s.data[c].(status := FinishedIgnored)] else s.data)
    ensures Queues(s')
  {
    hide Registers, Lists, ListsRunning, ListsPaused;
    TargetElsewhere(s, c, p);
    if s.split {
      ResettledRegisters(s, s', c, p);
    }
  }

  lemma ResettledRegisters(s: Sys, s': Sys, c: Id, p: Place)
    requires s.data.Keys == s.place.Keys && Queues(s) && c in s.place && s.place[c].AtCurrent?
    requires p.AtDelayed? || (p.AtDone? && c in s.data && s.limit < s.data[c].Len())
    requires c in s.data && s' == s.(place := s.place[c := p],
      data := if p.AtDone? then s.data[c := s.data[c].(status := FinishedIgnored)] else s.data)
    requires s.split
    ensures Registers(s')
  {
  }

  lemma ResettledPhase(s: Sys, s': Sys, c: Id, p: Place, q: Queue, scheduled: seq<Id>, delayed: seq<Id>)
    requires Phase(s, q, scheduled, delayed, Some(c)) && s.place[c].AtCurrent?
    requires p.AtDelayed? || (p.AtDone? && c in s.data && s.limit < s.data[c].Len())
    requires c in s.data && s' == s.(place := s.place[c := p],
      data := if p.AtDone? then s.data[c := s.data[c].(status := FinishedIgnored)] else s.data)
    ensures Phase(s', q, scheduled, if p.AtDone? then delayed else delayed + [c], None)
  {
    if p.AtDelayed? {
      ListsAppend(delayed, s.place, AtDelayed, c);
    }
  }

  lemma ResettledGood(s: Sys, s': Sys, c: Id, p: Place)
    requires s.b > 0 && c in s.place && s.place[c].AtCurrent? && c in s.data && GoodAt(s, c)
    requires p.AtDelayed? || (p.AtDone? && c in s.data && s.limit < s.data[c].Len())
    requires s' == s.(place := s.place[c := p],
      data := if p.AtDone? then s.data[c := s.data[c].(status := FinishedIgnored)] else s.data)
    ensures GoodAt(s', c) && !InBatch(s.place, c) && s'.data[c].Cached() == s.data[c].Cached()
  {
    if p.AtDone? && 0 <= s.data[c].Cached() {
      CeilDivLeast(s.data[c].Cached(), s.b);
    }
  }

  lemma Populated(s: Sys, l: Log, s': Sys, c: Id, n: int, t: int, r: Round)
    requires Sound(s, l) && At(s, r) && r.cur == Some(c)
    requires c in s.data && s' == s.(data := s.data[c := s.data[c].Populate(0, n, t)])
    ensures Sound(s', l) && At(s', r) && Onward(s, r, s', r)
  {
    hide PoolOk, Exclusive, Sound, GoodAt, OthersSame, VictimList, Frozen, Phase, Queues, DoneWith;
    CurrentFacts(s, l, r, c);
    SoundKeys(s, l);
    PopulatedFrom(s, s', c, n, t, r.q, r.scheduled, r.delayed);
    OthersSameFrom(s, s', c);
    PreKept(s, s', r.pre, c);
    StepSame(s, l, s', c);
    FrozenOne(s, s', c);
    PhaseTokens(s, s', r, c);
    DoneOne(s, s', c);
    assert r.ignored[|r.ignored|..] == [];
  }

  lemma PopulatedFrom(s: Sys, s': Sys, c: Id, n: int, r: int, q: Queue, scheduled: seq<Id>, delayed: seq<Id>)
    requires s.b > 0 && s.data.Keys == s.place.Keys && Queues(s)
    requires c in s.place && s.place[c].AtCurrent? && GoodAt(s, c)
    requires Phase(s, q, scheduled, delayed, Some(c))
    requires c in s.data && s' == s.(data := s.data[c := s.data[c].Populate(0, n, r)])
    ensures Queues(s') && GoodAt(s', c) && s'.data[c].Cached() == s.data[c].Cached()
    ensures Phase(s', q, scheduled, delayed, Some(c))
  {
    hide Queues, Phase, GoodAt;
    PopulatedGood(s, s', c, n, r);
    PopulatedQueues(s, s', c, n, r);
    PopulatedPhase(s, s', c, n, r, q, scheduled, delayed);
  }

  lemma PopulatedGood(s: Sys, s': Sys, c: Id, n: int, r: int)
    requires s.b > 0 && c in s.place && c in s.data && s.place[c].AtCurrent? && GoodAt(s, c)
    requires s' == s.(data := s.data[c := s.data[c].Populate(0, n, r)])
    ensures GoodAt(s', c) && s'.data[c].Cached() == s.data[c].Cached()
  {
    var d := s.data[c];
    assert d.Populate(0, n, r).Cleared() == d.Cleared();
  }

  lemma PopulatedQueues(s: Sys, s': Sys, c: Id, n: int, r: int)
    requires s.data.Keys == s.place.Keys && Queues(s) && c in s.data && s.place[c].AtCurrent?
    requires s' == s.(data := s.data[c := s.data[c].Populate(0, n, r)])
    ensures Queues(s')
  {
  }

  lemma PopulatedPhase(s: Sys, s': Sys, c: Id, n: int, r: int, q: Queue, scheduled: seq<Id>, delayed: seq<Id>)
    requires s.data.Keys == s.place.Keys && c in s.data && s.place[c].AtCurrent?
    requires Phase(s, q, scheduled, delayed, Some(c))
    requires s' == s.(data := s.data[c := s.data[c].Populate(0, n, r)])
    ensures Phase(s', q, scheduled, delayed, Some(c))
  {
  }

  /** The tokens that the scheduled requests forward: `get_num_batched_tokens`. */
  ghost function BatchTokens(data: map<Id, SeqRec>, ids: seq<Id>): int {
    if ids == [] then 0 else Batched(data, ids[0]) + BatchTokens(data, ids[1..])
  }

  function Batched(data: map<Id, SeqRec>, x: Id): int {
    if x in data then data[x].resumeDiscard + data[x].runningInflight else 0
  }

  lemma {:induction false} BatchTokensSame(data: map<Id, SeqRec>, data': map<Id, SeqRec>, ids: seq<Id>)
    requires forall x :: x in ids ==> Batched(data', x) == Batched(data, x)
    ensures BatchTokens(data', ids) == BatchTokens(data, ids)
  {
    if ids != [] {
      BatchTokensSame(data, data', ids[1..]);
    }
  }

  lemma {:induction false} BatchTokensConcat(data: map<Id, SeqRec>, a: seq<Id>, b: seq<Id>)
    ensures BatchTokens(data, a + b) == BatchTokens(data, a) + BatchTokens(data, b)
  {
    if a == [] {
      assert a + b == b;
    } else {
      BatchTokensConcat(data, a[1..], b);
      assert (a + b)[1..] == a[1..] + b;
    }
  }

  /** Requests in the batch keep their place and their planned work. */
  ghost predicate Frozen(s: Sys, s': Sys) {
    forall x {:trigger FrozenAt(s, s', x)} :: InBatch(s.place, x) ==> FrozenAt(s, s', x)
  }

  ghost predicate FrozenAt(s: Sys, s': Sys, x: Id) {
    x in s.data && x in s'.data && s'.data[x] == s.data[x] && x in s.place && x in s'.place && s'.place[x] == s.place[x]
  }
}
