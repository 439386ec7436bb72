/** One scheduling iteration as it happened: what it discards, whom it gives up, and what each of its phases was
    offered, decided and left behind. */
module Ledgers {
  import opened Basics
  import opened Blocks
  import opened Sequences
  import opened Layouts
  import opened System
  import opened Memory
  import opened Steps
  import opened Preemption
  import opened Rounds
  import opened Phases
  import opened Victims
  import opened Reclaims
  import opened Turns
  import opened Iterations
  import opened Sorting

  /** What the policies and the clock contribute to one iteration: the priorities of its four sorts,
      the waste estimates, and the waiting requests that are due for starvation avoidance. */
  datatype Guidance = Guidance(discard: Id -> real, running: Id -> real, targets: Id -> real, waiting: Id -> real,
                               estimate: Id -> Estimate, promoted: set<Id>)

  /** One phase: the state and the limits that its `_schedule` call starts with, the preemption targets, the call,
      the state, the local lists and the limits that it ends with, and the state once the lists are put back. */
  datatype PhaseRun = PhaseRun(begun: Sys, lim: Limits, pre: seq<Id>, call: Call,
                               ended: Sys, r: Round, limLeft: Limits, closed: Sys)

  /** One iteration: the state after the active discard, the state after the victims were chosen, the worst ones
      in `pre` and the others in the order in which they were given up, and the phases. */
  datatype Iteration = Iteration(discarded: Sys, chosen: Sys, pre: seq<Id>, order: seq<Id>, phases: seq<PhaseRun>)

  /** When nobody waits, the first swapped request by priority is restarted, and waits. */
  ghost predicate FirstDiscarded(s: Sys, s': Sys, priority: Id -> real) {
    if s.waiting == [] && s.swapped != [] then
      var sorted := SortedBy(s.swapped, priority);
      && sorted != [] && sorted[0] in s.data && s'.pool.tables == s.pool.tables - {sorted[0]}
      && s' == s.(pool := s'.pool,
                  data := s.data[sorted[0] := s.data[sorted[0]].Restarted().(status := Status.Waiting)],
                  place := s.place[sorted[0] := AtWaiting], waiting := [sorted[0]], swapped := sorted[1..])
    else s' == s
  }

  /** The worst candidates become preemption targets, and every other one is given up by its strategy. */
  ghost predicate GaveUp(v: Variant, estimate: Id -> Estimate, s: Sys, s': Sys, pre: seq<Id>, order: seq<Id>) {
    && (forall x :: x in pre <==> x in s.paused && Worst(v, s.paused, estimate, x))
    && (forall x :: x in order <==> x in s.paused && Candidate(v, s.paused[x], estimate(x)) && x !in pre)
    && NoDup(order) && s'.paused.Keys == s.paused.Keys
    && (forall x :: x in s.paused && x !in order ==> s'.paused[x] == s.paused[x])
    && Fates(v, s.pool.tables, estimate, order, |s.pool.cpu.free|, s'.paused)
    && |s'.pool.cpu.free| == RoomLeft(v, s.pool.tables, estimate, order, |s.pool.cpu.free|)
    && s'.running == s.running && s'.waiting == s.waiting && s'.swapped == s.swapped && (order == [] ==> s' == s)
  }

  ghost predicate PhaseCalled(v: Variant, f: Flags, ph: PhaseRun) {
    Called(v, f, ph.pre, ph.call, ph.begun, ph.lim, ph.ended, ph.r, ph.limLeft)
  }

  /** After a phase over a list of the scheduler's own, what was scheduled runs, and what was delayed is back:
      running and swapped requests behind their queue, waiting ones in front. */
  ghost predicate Refilled(s: Sys, r: Round, s': Sys) {
    && s' == s.(place := s'.place,
                running := if r.q.QRunning? then s.running + r.scheduled + r.delayed else s.running + r.scheduled,
                swapped := if r.q.QSwapped? then s.swapped + r.delayed else s.swapped,
                waiting := if r.q.QWaiting? then r.delayed + s.waiting else s.waiting)
    && Housed(s, s', r.q)
  }

  /** Everybody who was scheduled or put off has a place again. */
  ghost predicate Housed(s: Sys, s': Sys, q: Queue) {
    && s'.place.Keys == s.place.Keys
    && forall x {:trigger HousedAt(s, s', q, x)} :: x in s.place ==> HousedAt(s, s', q, x)
  }

  ghost predicate HousedAt(s: Sys, s': Sys, q: Queue, x: Id) {
    x in s.place && x in s'.place &&
    match s.place[x]
    case AtScheduled => s'.place[x] == AtBatch
    case AtDelayed =>
      (match q
       case QRunning => s'.place[x] == AtRunning
       case QSwapped => s'.place[x] == AtSwapped
       case QWaiting => s'.place[x] == AtWaiting
       case QCombined => s'.place[x] == if x in s.swapped then AtSwapped else AtWaiting)
    case AtCombined => s'.place[x] == if x in s.swapped then AtSwapped else AtWaiting
    case p => s'.place[x] == p
  }

  /** The combined phase works on a copy of both queues: by priority, the promoted waiting requests first. */
  ghost predicate Merged(s: Sys, s': Sys, priority: Id -> real, promoted: set<Id>) {
    && s' == s.(combined := Partition(SortedBy(s.swapped + s.waiting, priority), Due(s.data, promoted)),
                split := true, place := s'.place)
    && s'.place.Keys == s.place.Keys
    && forall x :: x in s.place ==>
         s'.place[x] == if s.place[x].AtSwapped? || s.place[x].AtWaiting? then AtCombined else s.place[x]
  }

  /** After it, whoever was not scheduled is back in the queue that lists it, delayed ones first. */
  ghost predicate Divided(s: Sys, r: Round, s': Sys) {
    var left := r.delayed + s.combined;
    && s' == s.(split := false, combined := [], place := s'.place, running := s.running + r.scheduled,
                swapped := Select(left, In(s.swapped)), waiting := Select(left, In(s.waiting)))
    && Housed(s, s', QCombined) && (forall x :: x in r.scheduled ==> (x in s.waiting <==> x !in s.swapped))
  }

  function RunningFlags(maxNumSeqs: int): Flags {
    Flags(QRunning, true, true, maxNumSeqs, false, false)
  }

  function SwappedFlags(maxNumSeqs: int): Flags {
    Flags(QSwapped, true, false, maxNumSeqs, false, true)
  }

  function WaitingFlags(maxNumSeqs: int): Flags {
    Flags(QWaiting, true, false, maxNumSeqs, true, true)
  }

  function CombinedFlags(maxNumSeqs: int): Flags {
    Flags(QCombined, true, false, maxNumSeqs, false, false)
  }

  /** The running requests have the first phase: they are offered everything, by priority, and may be preempted for
      each other. */
  ghost predicate RunningFirst(v: Variant, maxNumSeqs: int, g: Guidance, pre: seq<Id>, a: PhaseRun, s: Sys,
                               lim: Limits)
  {
    && a.begun == s.(running := SortedBy(s.running, g.running)) && a.pre == pre && a.lim == lim
    && PhaseCalled(v, RunningFlags(maxNumSeqs), a) && Refilled(a.ended, a.r, a.closed)
  }

  ghost predicate SwappedNext(v: Variant, maxNumSeqs: int, g: Guidance, a: PhaseRun, b: PhaseRun) {
    && b.begun == a.closed.(swapped := SortedBy(a.closed.swapped, g.targets))
    && b.pre == a.r.pre && b.lim == a.limLeft
    && PhaseCalled(v, SwappedFlags(maxNumSeqs - |a.r.scheduled|), b) && Refilled(b.ended, b.r, b.closed)
  }

  ghost predicate WaitingLast(v: Variant, maxNumSeqs: int, g: Guidance, a: PhaseRun, b: PhaseRun, c: PhaseRun) {
    && c.begun == b.closed.(waiting := SortedBy(b.closed.waiting, g.waiting))
    && c.pre == b.r.pre && c.lim == b.limLeft
    && PhaseCalled(v, WaitingFlags(maxNumSeqs - |a.r.scheduled + b.r.scheduled|), c) && Refilled(c.ended, c.r, c.closed)
  }

  ghost predicate BothNext(v: Variant, maxNumSeqs: int, g: Guidance, a: PhaseRun, b: PhaseRun) {
    && Merged(a.closed, b.begun, g.targets, g.promoted) && b.pre == a.r.pre && b.lim == a.limLeft
    && PhaseCalled(v, CombinedFlags(maxNumSeqs - |a.r.scheduled|), b) && Divided(b.ended, b.r, b.closed)
  }

  /** Exactly the first `n` requests of the batch are marked as prompts. */
  ghost predicate PromptsAre(plan: Plan, n: nat) {
    && |plan.isPrompt| == |plan.scheduled|
    && forall i :: 0 <= i < |plan.isPrompt| ==> (plan.isPrompt[i] <==> i < n)
  }

  /** The older scheduler's phases, one after the other, and the batch: what the waiting list gave comes first. */
  ghost predicate InThree(v: Variant, maxNumSeqs: int, g: Guidance, pre: seq<Id>, phases: seq<PhaseRun>,
                          s: Sys, lim: Limits, s': Sys, plan: Plan)
  {
    && |phases| == 3 && RunningFirst(v, maxNumSeqs, g, pre, phases[0], s, lim)
    && SwappedNext(v, maxNumSeqs, g, phases[0], phases[1])
    && WaitingLast(v, maxNumSeqs, g, phases[0], phases[1], phases[2]) && s' == phases[2].closed
    && var a, b, c := phases[0].r, phases[1].r, phases[2].r;
       && plan.scheduled == c.scheduled + (a.scheduled + b.scheduled)
       && plan.ignored == a.ignored + b.ignored + c.ignored && PromptsAre(plan, |c.scheduled|)
  }

  /** The newer scheduler's phases, and the batch: what the waiting list gave comes first, and what the swapped
      one gave last. */
  ghost predicate InTwo(v: Variant, maxNumSeqs: int, g: Guidance, pre: seq<Id>, phases: seq<PhaseRun>,
                        s: Sys, lim: Limits, s': Sys, plan: Plan)
  {
    && |phases| == 2 && RunningFirst(v, maxNumSeqs, g, pre, phases[0], s, lim)
    && BothNext(v, maxNumSeqs, g, phases[0], phases[1]) && s' == phases[1].closed
    && var a, b, last := phases[0].r, phases[1].r, phases[1].ended;
       var prompts, others := Select(b.scheduled, In(last.waiting)), Select(b.scheduled, In(last.swapped));
       && plan.scheduled == prompts + a.scheduled + others && plan.ignored == a.ignored + b.ignored
       && PromptsAre(plan, |prompts|)
  }

  /** The limits that an iteration starts with. */
  function Allowance(v: Variant, swapIn: nat, swapOut: nat): Limits {
    if v.V2? then Limits(384, 1_000_000_000, 1_000_000_000) else Limits(384, swapIn, swapOut)
  }

  /** The whole iteration, from `s` to `s'`, and its batch. */
  ghost predicate Iterated(v: Variant, maxNumSeqs: int, g: Guidance, lim: Limits, it: Iteration, s: Sys, s': Sys,
                           plan: Plan)
  {
    && FirstDiscarded(s, it.discarded, g.discard) && GaveUp(v, g.estimate, it.discarded, it.chosen, it.pre, it.order)
    && if v.InferCept? then InThree(v, maxNumSeqs, g, it.pre, it.phases, it.chosen, lim, s', plan)
       else InTwo(v, maxNumSeqs, g, it.pre, it.phases, it.chosen, lim, s', plan)
  }

  // ---- What the steps of an iteration show of this

  lemma RefilledIs(s: Sys, l: Log, r: Round)
    requires Sound(s, l) && At(s, r) && r.cur.None? && !r.q.QCombined?
    ensures Refilled(s, r, Closed(s, r))
  {
    hide Sound, At, Phase, Queues, Lists, HousedAt;
    SoundKeys(s, l);
    AtParts(s, r);
    ClosedKeys(s, r);
    forall x | x in s.place ensures HousedAt(s, Closed(s, r), r.q, x) {
      ClosedHoused(s, r, x);
    }
    NothingMore(s.running + r.scheduled);
    NothingMore(s.swapped);
    NothingMore(s.waiting);
  }

  lemma ClosedHoused(s: Sys, r: Round, x: Id)
    requires Phase(s, r.q, r.scheduled, r.delayed, None) && !r.q.QCombined? && s.data.Keys == s.place.Keys && Queues(s)
    requires x in s.place && Closed(s, r).place.Keys == s.place.Keys
    ensures HousedAt(s, Closed(s, r), r.q, x)
  {
    hide Phase, Closed, Lists;
    ClosedPlace(s, r, x);
  }

  lemma DividedIs(s: Sys, l: Log, r: Round)
    requires Sound(s, l) && At(s, r) && r.cur.None? && r.q.QCombined?
    ensures Divided(s, r, Parted(s, r))
  {
    hide Sound, At, Phase, Queues, Lists, HousedAt, PartedPlace;
    SoundKeys(s, l);
    AtParts(s, r);
    PartedPlaces(s, r);
    forall x | x in s.place ensures HousedAt(s, Parted(s, r), QCombined, x) {
      assert Parted(s, r).place[x] == PartedPlace(s, x);
      PartedHoused(s, Parted(s, r), x);
    }
    forall x | x in r.scheduled ensures x in s.waiting <==> x !in s.swapped {
      StillListed(s, l, r, x);
    }
  }

  lemma StillListed(s: Sys, l: Log, r: Round, x: Id)
    requires Sound(s, l) && At(s, r) && r.q.QCombined? && x in r.scheduled
    ensures x in s.waiting <==> x !in s.swapped
  {
    hide PoolOk, Exclusive, AllGood, Refines, Journal;
    assert Registers(s);
  }

  lemma PartedHoused(s: Sys, s': Sys, x: Id)
    requires x in s.place && x in s'.place && s'.place[x] == PartedPlace(s, x)
    ensures HousedAt(s, s', QCombined, x)
  {
  }

  lemma MergedIs(s: Sys, l: Log, c: seq<Id>, pre: seq<Id>, batch: seq<Id>, priority: Id -> real, promoted: set<Id>)
    requires Sound(s, l) && Between(s, pre, batch)
    requires c == Partition(SortedBy(s.swapped + s.waiting, priority), Due(s.data, promoted))
    ensures Merged(s, Combined(s, c), priority, promoted)
  {
    hide Sound, Queues, SortedBy, Partition;
    SoundKeys(s, l);
    TargetsPermute(s.swapped + s.waiting, priority, Due(s.data, promoted));
    CombinedMembers(s, c);
  }

  lemma GaveUpFrom(v: Variant, estimate: Id -> Estimate, s: Sys, s': Sys, pre: seq<Id>, order: seq<Id>)
    requires forall x :: x in pre <==> x in s.paused && Worst(v, s.paused, estimate, x)
    requires forall x :: x in order <==> x in s.paused && Candidate(v, s.paused[x], estimate(x)) && x !in pre
    requires NoDup(order) && s'.paused.Keys == s.paused.Keys
    requires forall x :: x in s.paused && x !in order ==> s'.paused[x] == s.paused[x]
    requires Fates(v, s.pool.tables, estimate, order, |s.pool.cpu.free|, s'.paused)
    requires |s'.pool.cpu.free| == RoomLeft(v, s.pool.tables, estimate, order, |s.pool.cpu.free|)
    requires s'.running == s.running && s'.waiting == s.waiting && s'.swapped == s.swapped
    requires order == [] ==> s' == s
    ensures GaveUp(v, estimate, s, s', pre, order)
  {
    hide Fates, RoomLeft, Worst;
  }

  lemma NothingDiscarded(s: Sys, priority: Id -> real)
    ensures s.waiting != [] || s.swapped == [] ==> FirstDiscarded(s, s, priority)
  {
  }

  lemma PhaseCalledIs(v: Variant, f: Flags, ph: PhaseRun)
    requires Called(v, f, ph.pre, ph.call, ph.begun, ph.lim, ph.ended, ph.r, ph.limLeft)
    ensures PhaseCalled(v, f, ph)
  {
  }

  lemma CombinedFlagsAre(maxNumSeqs: int)
    ensures CombinedFlags(maxNumSeqs) == Flags(QCombined, true, false, maxNumSeqs, false, false)
  {
  }

  lemma AllowanceIs(v: Variant, swapIn: nat, swapOut: nat)
    ensures Allowance(v, swapIn, swapOut).tokens == 384
    ensures Allowance(v, swapIn, swapOut).swapIn == if v.V2? then 1_000_000_000 else swapIn
    ensures Allowance(v, swapIn, swapOut).swapOut == if v.V2? then 1_000_000_000 else swapOut
  {
  }

  lemma SortedIs(s: Sys, s1: Sys, priority: Id -> real)
    requires s1 == Reordered(s, QSwapped, SortedBy(TargetsOf(s, QSwapped), priority))
    ensures s1 == s.(swapped := SortedBy(s.swapped, priority))
  {
  }

  lemma FirstDiscardedIs(s: Sys, s1: Sys, s': Sys, priority: Id -> real)
    requires s.waiting == [] && s.swapped != [] && SortedBy(s.swapped, priority) != [] && !s.split
    requires s1 == s.(swapped := SortedBy(s.swapped, priority)) && s1.swapped[0] in s1.data
    requires s' == RestartedSwapped(s1, s1.swapped[0], s'.pool)
    requires s'.pool.tables == s1.pool.tables - {s1.swapped[0]}
    ensures FirstDiscarded(s, s', priority)
  {
    hide SortedBy;
  }

  lemma RunningFirstIs(v: Variant, maxNumSeqs: int, g: Guidance, pre: seq<Id>, a: PhaseRun, s: Sys, lim: Limits)
    requires a.begun == Reordered(s, QRunning, SortedBy(TargetsOf(s, QRunning), g.running))
    requires a.pre == pre && a.lim == lim && Refilled(a.ended, a.r, a.closed)
    requires PhaseCalled(v, Flags(QRunning, true, true, maxNumSeqs, false, false), a)
    ensures RunningFirst(v, maxNumSeqs, g, pre, a, s, lim)
  {
    hide PhaseCalled, Refilled, SortedBy;
  }

  lemma SwappedNextIs(v: Variant, maxNumSeqs: int, g: Guidance, a: PhaseRun, b: PhaseRun)
    requires b.begun == Reordered(a.closed, QSwapped, SortedBy(TargetsOf(a.closed, QSwapped), g.targets))
    requires b.pre == a.r.pre && b.lim == a.limLeft && Refilled(b.ended, b.r, b.closed)
    requires PhaseCalled(v, Flags(QSwapped, true, false, maxNumSeqs - |a.r.scheduled|, false, true), b)
    ensures SwappedNext(v, maxNumSeqs, g, a, b)
  {
    hide PhaseCalled, Refilled, SortedBy;
  }

  lemma WaitingLastIs(v: Variant, maxNumSeqs: int, g: Guidance, a: PhaseRun, b: PhaseRun, c: PhaseRun)
    requires c.begun == Reordered(b.closed, QWaiting, SortedBy(TargetsOf(b.closed, QWaiting), g.waiting))
    requires c.pre == b.r.pre && c.lim == b.limLeft && Refilled(c.ended, c.r, c.closed)
    requires PhaseCalled(v, Flags(QWaiting, true, false, maxNumSeqs - |a.r.scheduled + b.r.scheduled|, true, true), c)
    ensures WaitingLast(v, maxNumSeqs, g, a, b, c)
  {
    hide PhaseCalled, Refilled, SortedBy;
  }

  lemma BothNextIs(v: Variant, maxNumSeqs: int, g: Guidance, a: PhaseRun, b: PhaseRun)
    requires Merged(a.closed, b.begun, g.targets, g.promoted) && b.pre == a.r.pre && b.lim == a.limLeft
    requires PhaseCalled(v, CombinedFlags(maxNumSeqs - |a.r.scheduled|), b) && Divided(b.ended, b.r, b.closed)
    ensures BothNext(v, maxNumSeqs, g, a, b)
  {
  }

  lemma ThreeIs(v: Variant, maxNumSeqs: int, g: Guidance, pre: seq<Id>, a: PhaseRun, b: PhaseRun, c: PhaseRun,
                s: Sys, lim: Limits, s': Sys, plan: Plan)
    requires RunningFirst(v, maxNumSeqs, g, pre, a, s, lim) && SwappedNext(v, maxNumSeqs, g, a, b)
    requires WaitingLast(v, maxNumSeqs, g, a, b, c) && s' == c.closed
    requires plan == Plan(c.r.scheduled + (a.r.scheduled + b.r.scheduled),
      Marks(|c.r.scheduled|, |a.r.scheduled + b.r.scheduled|), a.r.ignored + b.r.ignored + c.r.ignored)
    ensures InThree(v, maxNumSeqs, g, pre, [a, b, c], s, lim, s', plan)
  {
    hide RunningFirst, SwappedNext, WaitingLast;
  }

  lemma TwoIs(v: Variant, maxNumSeqs: int, g: Guidance, pre: seq<Id>, a: PhaseRun, b: PhaseRun,
              s: Sys, lim: Limits, s': Sys, plan: Plan)
    requires RunningFirst(v, maxNumSeqs, g, pre, a, s, lim) && BothNext(v, maxNumSeqs, g, a, b) && s' == b.closed
    requires var prompts, others := Select(b.r.scheduled, In(b.ended.waiting)),
                                    Select(b.r.scheduled, In(b.ended.swapped));
      plan == Plan(prompts + a.r.scheduled + others, Marks(|prompts|, |a.r.scheduled| + |others|),
                   a.r.ignored + b.r.ignored)
    ensures InTwo(v, maxNumSeqs, g, pre, [a, b], s, lim, s', plan)
  {
    hide RunningFirst, BothNext, Select, In;
  }

  lemma IteratedIs(v: Variant, maxNumSeqs: int, g: Guidance, lim: Limits, it: Iteration, s: Sys, s': Sys, plan: Plan)
    requires FirstDiscarded(s, it.discarded, g.discard)
    requires GaveUp(v, g.estimate, it.discarded, it.chosen, it.pre, it.order)
    requires v.InferCept? ==> InThree(v, maxNumSeqs, g, it.pre, it.phases, it.chosen, lim, s', plan)
    requires v.V2? ==> InTwo(v, maxNumSeqs, g, it.pre, it.phases, it.chosen, lim, s', plan)
    ensures Iterated(v, maxNumSeqs, g, lim, it, s, s', plan)
  {
    hide FirstDiscarded, GaveUp, InThree, InTwo;
  }
}
