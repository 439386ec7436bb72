/** What an iteration's record amounts to: which requests its batch holds, with which work, and why. */
module LedgerLaws {
  import opened Basics
  import opened Blocks
  import opened Sequences
  import opened Layouts
  import opened System
  import opened Memory
  import opened Steps
  import opened Preemption
  import opened Rounds
  import opened Phases
  import opened Victims
  import opened Turns
  import opened TurnLaws
  import opened Iterations
  import opened Sorting
  import opened Ledgers

  /** The arguments of the call of phase `i`. */
  function FlagsOf(v: Variant, maxNumSeqs: int, phases: seq<PhaseRun>, i: nat): Flags
    requires i < |phases|
  {
    if i == 0 then RunningFlags(maxNumSeqs)
    else if v.V2? then CombinedFlags(maxNumSeqs - |phases[0].r.scheduled|)
    else if i == 1 then SwappedFlags(maxNumSeqs - |phases[0].r.scheduled|)
    else WaitingFlags(maxNumSeqs - |phases[0].r.scheduled + phases[1].r.scheduled|)
  }

  // ---- The batch comes through the later phases as it was

  lemma {:induction false} TrailFrozen(v: Variant, f: Flags, turns: seq<Turn>, s: Sys, r: Round, lim: Limits,
                                       s': Sys, r': Round, lim': Limits, stop: bool, x: Id)
    requires Trail(v, f, turns, s, r, lim, s', r', lim', stop) && InBatch(s.place, x) && x in s.data
    ensures x in s'.data && s'.data[x] == s.data[x] && InBatch(s'.place, x)
    decreases |turns|
  {
    hide Turned;
    if turns != [] {
      var n := |turns| - 1;
      TrailFrozen(v, f, turns[..n], s, r, lim, turns[n].s, turns[n].r, turns[n].lim, false, x);
      TurnFrozen(v, f, turns[n], s', r', lim', stop, x);
    }
  }

  lemma CalledFrozen(v: Variant, f: Flags, ph: PhaseRun, x: Id)
    requires PhaseCalled(v, f, ph) && InBatch(ph.begun.place, x) && x in ph.begun.data
    ensures x in ph.ended.data && ph.ended.data[x] == ph.begun.data[x] && InBatch(ph.ended.place, x)
  {
    hide Trail;
    CalledParts(v, f, ph.pre, ph.call, ph.begun, ph.lim, ph.ended, ph.r, ph.limLeft);
    TrailFrozen(v, f, ph.call.turns, ph.begun, Round(f.q, [], [], [], ph.pre, 0, None), ph.lim, ph.call.end, ph.r,
      ph.call.lim, ph.call.stopped, x);
    EndKeeps(ph.call.end, ph.r, ph.ended, x);
  }

  /** Request `x` is in the batch with record `d`. */
  ghost predicate Aboard(s: Sys, x: Id, d: SeqRec) {
    x in s.data && s.data[x] == d && InBatch(s.place, x)
  }

  lemma HousedAboard(s: Sys, s': Sys, q: Queue, x: Id, d: SeqRec)
    requires Housed(s, s', q) && s'.data == s.data && Aboard(s, x, d)
    ensures Aboard(s', x, d)
  {
    assert HousedAt(s, s', q, x);
  }

  lemma ClosedAboard(ph: PhaseRun, x: Id, d: SeqRec)
    requires Refilled(ph.ended, ph.r, ph.closed) || Divided(ph.ended, ph.r, ph.closed)
    requires Aboard(ph.ended, x, d)
    ensures Aboard(ph.closed, x, d)
  {
    hide Housed, Aboard, Select;
    if Refilled(ph.ended, ph.r, ph.closed) {
      HousedAboard(ph.ended, ph.closed, ph.r.q, x, d);
    } else {
      HousedAboard(ph.ended, ph.closed, QCombined, x, d);
    }
  }

  lemma MergedAboard(s: Sys, s': Sys, priority: Id -> real, promoted: set<Id>, x: Id, d: SeqRec)
    requires Merged(s, s', priority, promoted) && Aboard(s, x, d)
    ensures Aboard(s', x, d)
  {
    hide SortedBy, Partition;
  }

  /** The states after the phases, and where each one starts from. */
  ghost predicate Chained(v: Variant, maxNumSeqs: int, phases: seq<PhaseRun>) {
    && (forall i {:trigger FlagsOf(v, maxNumSeqs, phases, i)} :: 0 <= i < |phases| ==>
          PhaseCalled(v, FlagsOf(v, maxNumSeqs, phases, i), phases[i])
          && (Refilled(phases[i].ended, phases[i].r, phases[i].closed)
              || Divided(phases[i].ended, phases[i].r, phases[i].closed)))
    && (forall i {:trigger phases[i].begun} :: 0 < i < |phases| ==> Passes(phases[i - 1].closed, phases[i].begun))
  }

  ghost predicate Passes(s: Sys, s': Sys) {
    forall x, d :: Aboard(s, x, d) ==> Aboard(s', x, d)
  }

  lemma MergedPasses(s: Sys, s': Sys, priority: Id -> real, promoted: set<Id>)
    requires Merged(s, s', priority, promoted)
    ensures Passes(s, s')
  {
    hide Merged, Aboard;
    forall x, d | Aboard(s, x, d) ensures Aboard(s', x, d) {
      MergedAboard(s, s', priority, promoted, x, d);
    }
  }

  lemma ThreeChained(v: Variant, maxNumSeqs: int, g: Guidance, pre: seq<Id>, phases: seq<PhaseRun>, s: Sys,
                     lim: Limits, s': Sys, plan: Plan)
    requires InThree(v, maxNumSeqs, g, pre, phases, s, lim, s', plan) && v.InferCept?
    ensures Chained(v, maxNumSeqs, phases)
  {
    hide PhaseCalled, Refilled, SortedBy;
  }

  lemma TwoChained(v: Variant, maxNumSeqs: int, g: Guidance, pre: seq<Id>, phases: seq<PhaseRun>, s: Sys,
                   lim: Limits, s': Sys, plan: Plan)
    requires InTwo(v, maxNumSeqs, g, pre, phases, s, lim, s', plan) && v.V2?
    ensures Chained(v, maxNumSeqs, phases)
  {
    hide PhaseCalled, Refilled, Divided, Merged, Passes, SortedBy, Select;
    MergedPasses(phases[0].closed, phases[1].begun, g.targets, g.promoted);
  }

  lemma IteratedChained(v: Variant, maxNumSeqs: int, g: Guidance, lim: Limits, it: Iteration, s: Sys, s': Sys,
                        plan: Plan)
    requires Iterated(v, maxNumSeqs, g, lim, it, s, s', plan)
    ensures Chained(v, maxNumSeqs, it.phases) && it.phases != [] && s' == it.phases[|it.phases| - 1].closed
  {
    hide FirstDiscarded, GaveUp, Chained, RunningFirst, SwappedNext, WaitingLast, BothNext;
    if v.InferCept? {
      ThreeChained(v, maxNumSeqs, g, it.pre, it.phases, it.chosen, lim, s', plan);
    } else {
      TwoChained(v, maxNumSeqs, g, it.pre, it.phases, it.chosen, lim, s', plan);
    }
  }

  /** Whoever is in the batch after phase `i` is in it, with the same work, at the end. */
  lemma {:induction false} StaysAboard(v: Variant, maxNumSeqs: int, phases: seq<PhaseRun>, i: nat, j: nat, x: Id,
                                       d: SeqRec)
    requires Chained(v, maxNumSeqs, phases) && i <= j < |phases| && Aboard(phases[i].ended, x, d)
    ensures Aboard(phases[j].closed, x, d)
    decreases j
  {
    hide PhaseCalled, Refilled, Divided;
    if i == j {
      assert PhaseCalled(v, FlagsOf(v, maxNumSeqs, phases, i), phases[i]);
      ClosedAboard(phases[i], x, d);
    } else {
      StaysAboard(v, maxNumSeqs, phases, i, j - 1, x, d);
      assert Passes(phases[j - 1].closed, phases[j].begun);
      assert PhaseCalled(v, FlagsOf(v, maxNumSeqs, phases, j), phases[j]);
      CalledFrozen(v, FlagsOf(v, maxNumSeqs, phases, j), phases[j], x);
      ClosedAboard(phases[j], x, d);
    }
  }

  /** The batch holds what the phases scheduled, and nothing else. */
  lemma Composed(v: Variant, maxNumSeqs: int, g: Guidance, lim: Limits, it: Iteration, s: Sys, s': Sys, plan: Plan,
                 x: Id)
    requires Iterated(v, maxNumSeqs, g, lim, it, s, s', plan)
    ensures x in plan.scheduled <==> exists i :: 0 <= i < |it.phases| && x in it.phases[i].r.scheduled
    ensures x in plan.ignored <==> exists i :: 0 <= i < |it.phases| && x in it.phases[i].r.ignored
  {
    hide FirstDiscarded, GaveUp, InThree, InTwo;
    if v.InferCept? {
      ComposedThree(v, maxNumSeqs, g, it.pre, it.phases, it.chosen, lim, s', plan, x);
    } else {
      ComposedTwo(v, maxNumSeqs, g, it.pre, it.phases, it.chosen, lim, s', plan, x);
    }
  }

  lemma ComposedThree(v: Variant, maxNumSeqs: int, g: Guidance, pre: seq<Id>, phases: seq<PhaseRun>, s: Sys,
                      lim: Limits, s': Sys, plan: Plan, x: Id)
    requires InThree(v, maxNumSeqs, g, pre, phases, s, lim, s', plan)
    ensures x in plan.scheduled <==> exists i :: 0 <= i < |phases| && x in phases[i].r.scheduled
    ensures x in plan.ignored <==> exists i :: 0 <= i < |phases| && x in phases[i].r.ignored
  {
    hide RunningFirst, SwappedNext, WaitingLast, PromptsAre;
    assert x in plan.scheduled <==>
      x in phases[0].r.scheduled || x in phases[1].r.scheduled || x in phases[2].r.scheduled;
    assert x in plan.ignored <==>
      x in phases[0].r.ignored || x in phases[1].r.ignored || x in phases[2].r.ignored;
  }

  lemma ComposedTwo(v: Variant, maxNumSeqs: int, g: Guidance, pre: seq<Id>, phases: seq<PhaseRun>, s: Sys,
                    lim: Limits, s': Sys, plan: Plan, x: Id)
    requires InTwo(v, maxNumSeqs, g, pre, phases, s, lim, s', plan)
    ensures x in plan.scheduled <==> exists i :: 0 <= i < |phases| && x in phases[i].r.scheduled
    ensures x in plan.ignored <==> exists i :: 0 <= i < |phases| && x in phases[i].r.ignored
  {
    hide RunningFirst, PhaseCalled, Merged, Housed, PromptsAre;
    assert x in plan.scheduled <==> x in phases[0].r.scheduled || x in phases[1].r.scheduled;
    assert x in plan.ignored <==> x in phases[0].r.ignored || x in phases[1].r.ignored;
  }

  /** The targets of the combined phase: every swapped and every waiting request once, the promoted waiting ones
      before all others, and both parts by falling priority. */
  lemma CombinedOrder(s: Sys, s': Sys, priority: Id -> real, promoted: set<Id>) returns (n: nat)
    requires Merged(s, s', priority, promoted)
    ensures multiset(s'.combined) == multiset(s.swapped + s.waiting) && n <= |s'.combined|
    ensures forall i :: 0 <= i < |s'.combined| ==> var x := s'.combined[i];
      (i < n <==> x in s.data && s.data[x].status.Waiting? && x in promoted)
    ensures Descending(s'.combined[..n], priority) && Descending(s'.combined[n..], priority)
  {
    hide SortedBy, Partition, Select, Subsequence, Descending;
    var sorted, due := SortedBy(s.swapped + s.waiting, priority), Due(s.data, promoted);
    n := |Select(sorted, due)|;
    TargetsPermute(s.swapped + s.waiting, priority, due);
    SortedDescends(s.swapped + s.waiting, priority);
    PartitionOrders(sorted, due);
    SubsequenceDescends(s'.combined[..n], sorted, priority);
    SubsequenceDescends(s'.combined[n..], sorted, priority);
    forall i | 0 <= i < |s'.combined|
      ensures i < n <==> due(s'.combined[i])
    {
    }
  }

  /** The tokens and blocks that target `t.c` is scheduled with, if it is. */
  ghost function WorkOf(t: Turn): SeqRec
    requires t.c in t.popped.data
  {
    var d := t.popped.data[t.c];
    d.Populate(0, Swapping(d, t.lim), Forwarding(d, t.lim, t.r.tokens)).(status := Status.Running)
  }

  /** In every phase, every target that may be scheduled at its turn, and whose blocks are free then, ends up in the
      batch, with exactly the work planned for it. */
  lemma BatchHoldsFitting(v: Variant, maxNumSeqs: int, g: Guidance, lim: Limits, it: Iteration, s: Sys, s': Sys,
                          plan: Plan, i: nat, k: nat)
    requires Iterated(v, maxNumSeqs, g, lim, it, s, s', plan) && i < |it.phases| && k < |it.phases[i].call.turns|
    requires FitsAt(FlagsOf(v, maxNumSeqs, it.phases, i), it.phases[i].call.turns[k])
    ensures var t := it.phases[i].call.turns[k]; t.c in plan.scheduled && Aboard(s', t.c, WorkOf(t))
  {
    hide Iterated, FitsAt, Called, PhaseCalled, Refilled, Divided;
    var ph, f := it.phases[i], FlagsOf(v, maxNumSeqs, it.phases, i);
    IteratedChained(v, maxNumSeqs, g, lim, it, s, s', plan);
    Composed(v, maxNumSeqs, g, lim, it, s, s', plan, ph.call.turns[k].c);
    CalledOf(v, f, ph);
    FitsHere(f, ph.call.turns[k]);
    FitsIsScheduled(v, f, ph.pre, ph.call, ph.begun, ph.lim, ph.ended, ph.r, ph.limLeft, k);
    StaysAboard(v, maxNumSeqs, it.phases, i, |it.phases| - 1, ph.call.turns[k].c, WorkOf(ph.call.turns[k]));
  }

  lemma FitsHere(f: Flags, t: Turn)
    requires FitsAt(f, t)
    ensures t.c in t.popped.data
  {
  }

  lemma CalledOf(v: Variant, f: Flags, ph: PhaseRun)
    requires PhaseCalled(v, f, ph)
    ensures Called(v, f, ph.pre, ph.call, ph.begun, ph.lim, ph.ended, ph.r, ph.limLeft)
  {
  }

  /** Nobody is in the batch without a turn at which there was work for it, nobody is ignored but for its length,
      nobody is put off without one of the source's reasons, and a phase leaves a target without a turn only if an
      earlier turn ended it. */
  lemma BatchReasoned(v: Variant, maxNumSeqs: int, g: Guidance, lim: Limits, it: Iteration, s: Sys, s': Sys,
                      plan: Plan, i: nat)
    requires Iterated(v, maxNumSeqs, g, lim, it, s, s', plan) && i < |it.phases|
    ensures var f := FlagsOf(v, maxNumSeqs, it.phases, i);
      && Reasoned(f, it.phases[i].call.turns, it.phases[i].r)
      && (it.phases[i].call.stopped || TargetsOf(it.phases[i].call.end, f.q) == [])
  {
    hide Iterated, Called, PhaseCalled, Reasoned, Refilled, Divided, TargetsOf;
    var ph, f := it.phases[i], FlagsOf(v, maxNumSeqs, it.phases, i);
    IteratedChained(v, maxNumSeqs, g, lim, it, s, s', plan);
    CalledOf(v, f, ph);
    CallReasoned(v, f, ph.pre, ph.call, ph.begun, ph.lim, ph.ended, ph.r, ph.limLeft);
  }

  // ---- The first target of a phase

  /** Target `c` is the first one of a call, may be scheduled, and its blocks are free. */
  ghost predicate MayRunFirst(f: Flags, s: Sys, lim: Limits, c: Id) {
    && TargetsOf(s, f.q) != [] && c == TargetsOf(s, f.q)[0] && c in s.data
    && var d := s.data[c];
       && d.Len() <= s.limit && f.maxSequences >= 1 && (Swapping(d, lim) > 0 || Forwarding(d, lim, 0) > 0)
       && Need(s, c, Swapping(d, lim), Forwarding(d, lim, 0)) <= |s.pool.gpu.free|
  }

  lemma FirstInBatch(v: Variant, maxNumSeqs: int, g: Guidance, lim: Limits, it: Iteration, s: Sys, s': Sys,
                     plan: Plan, i: nat, c: Id)
    requires Iterated(v, maxNumSeqs, g, lim, it, s, s', plan) && i < |it.phases|
    requires MayRunFirst(FlagsOf(v, maxNumSeqs, it.phases, i), it.phases[i].begun, it.phases[i].lim, c)
    ensures var ph := it.phases[i]; var d := ph.begun.data[c];
      && c in plan.scheduled && Aboard(s', c,
           d.Populate(0, Swapping(d, ph.lim), Forwarding(d, ph.lim, 0)).(status := Status.Running))
  {
    hide Iterated, Called, PhaseCalled, Refilled, Divided, Chained, TargetsOf;
    var ph, f := it.phases[i], FlagsOf(v, maxNumSeqs, it.phases, i);
    var d := ph.begun.data[c];
    IteratedChained(v, maxNumSeqs, g, lim, it, s, s', plan);
    PhaseOf(v, maxNumSeqs, it.phases, i);
    Composed(v, maxNumSeqs, g, lim, it, s, s', plan, c);
    CalledOf(v, f, ph);
    FirstIsScheduled(v, f, ph.pre, ph.call, ph.begun, ph.lim, ph.ended, ph.r, ph.limLeft, c);
    StaysAboard(v, maxNumSeqs, it.phases, i, |it.phases| - 1, c,
      d.Populate(0, Swapping(d, ph.lim), Forwarding(d, ph.lim, 0)).(status := Status.Running));
  }

  lemma PhaseOf(v: Variant, maxNumSeqs: int, phases: seq<PhaseRun>, i: nat)
    requires Chained(v, maxNumSeqs, phases) && i < |phases|
    ensures PhaseCalled(v, FlagsOf(v, maxNumSeqs, phases, i), phases[i])
  {
    hide PhaseCalled, Refilled, Divided;
  }

  /** A phase without targets changes nothing. */
  lemma EmptyCall(v: Variant, f: Flags, ph: PhaseRun)
    requires PhaseCalled(v, f, ph) && TargetsOf(ph.begun, f.q) == []
    ensures ph.ended == ph.begun && ph.r == Round(f.q, [], [], [], ph.pre, 0, None) && ph.limLeft == ph.lim
  {
    hide Turned, Onward, TargetsOf;
    var turns, r0 := ph.call.turns, Round(f.q, [], [], [], ph.pre, 0, None);
    if turns != [] {
      FirstTurn(v, f, turns, ph.begun, r0, ph.lim, ph.call.end, ph.r, ph.call.lim, ph.call.stopped);
      TurnAt(v, f, turns, ph.begun, r0, ph.lim, ph.call.end, ph.r, ph.call.lim, ph.call.stopped, 0);
      var a := AfterTurn(turns, 0, ph.call.end, ph.r, ph.call.lim);
      PoppedSame(v, f, turns[0], a.0, a.1, a.2, 1 == |turns| && ph.call.stopped);
    }
    assert ph.ended.data == ph.begun.data;
  }

  lemma EmptyPhase(v: Variant, f: Flags, ph: PhaseRun)
    requires PhaseCalled(v, f, ph) && TargetsOf(ph.begun, f.q) == [] && Refilled(ph.ended, ph.r, ph.closed)
    requires forall x :: x in ph.begun.place ==> Settled(ph.begun.place[x])
    ensures ph.closed == ph.begun && ph.limLeft == ph.lim && ph.r == Round(f.q, [], [], [], ph.pre, 0, None)
  {
    hide PhaseCalled, HousedAt, TargetsOf, Settled;
    EmptyCall(v, f, ph);
    forall x | x in ph.begun.place ensures ph.closed.place[x] == ph.begun.place[x] {
      assert HousedAt(ph.begun, ph.closed, f.q, x);
      SettledHoused(ph.begun, ph.closed, f.q, x);
    }
    assert ph.closed.place == ph.begun.place;
    NothingMore(ph.begun.running + []);
    NothingMore(ph.begun.running);
    NothingMore(ph.begun.swapped);
    NothingMore(ph.begun.waiting);
  }

  lemma SettledHoused(s: Sys, s': Sys, q: Queue, x: Id)
    requires HousedAt(s, s', q, x) && Settled(s.place[x])
    ensures s'.place[x] == s.place[x]
  {
  }

  /** Only waiting requests. */
  ghost predicate OnlyWaiting(s: Sys) {
    s.waiting != [] && s.running == [] && s.swapped == [] && s.paused == map[] && Between(s, [], [])
  }

  /** The waiting requests in the order in which they are offered the batch. */
  function Turnout(v: Variant, g: Guidance, s: Sys): seq<Id> {
    if v.InferCept? then SortedBy(s.waiting, g.waiting)
    else Partition(SortedBy(s.waiting, g.targets), Due(s.data, g.promoted))
  }

  lemma Memberless(l: seq<Id>)
    ensures l == [] || exists x :: x in l
  {
    if l != [] {
      assert l[0] in l;
    }
  }

  lemma NothingBefore(v: Variant, maxNumSeqs: int, g: Guidance, lim: Limits, it: Iteration, s: Sys, s': Sys,
                      plan: Plan)
    requires Iterated(v, maxNumSeqs, g, lim, it, s, s', plan) && OnlyWaiting(s)
    ensures it.chosen == s
  {
    hide InThree, InTwo, Fates, RoomLeft, Worst, Between;
    Memberless(it.order);
  }

  lemma LastOfThree(v: Variant, maxNumSeqs: int, g: Guidance, pre: seq<Id>, phases: seq<PhaseRun>, s: Sys,
                    lim: Limits, s': Sys, plan: Plan)
    requires InThree(v, maxNumSeqs, g, pre, phases, s, lim, s', plan) && v.InferCept? && OnlyWaiting(s)
    ensures phases[2].begun == s.(waiting := SortedBy(s.waiting, g.waiting)) && phases[2].lim == lim
    ensures FlagsOf(v, maxNumSeqs, phases, 2) == WaitingFlags(maxNumSeqs)
  {
    hide PhaseCalled, Refilled, VictimList;
    EmptyPhase(v, RunningFlags(maxNumSeqs), phases[0]);
    EmptyPhase(v, SwappedFlags(maxNumSeqs - |phases[0].r.scheduled|), phases[1]);
  }

  lemma LastOfTwo(v: Variant, maxNumSeqs: int, g: Guidance, pre: seq<Id>, phases: seq<PhaseRun>, s: Sys,
                  lim: Limits, s': Sys, plan: Plan)
    requires InTwo(v, maxNumSeqs, g, pre, phases, s, lim, s', plan) && v.V2? && OnlyWaiting(s)
    ensures Merged(s, phases[1].begun, g.targets, g.promoted) && phases[1].lim == lim
    ensures FlagsOf(v, maxNumSeqs, phases, 1) == CombinedFlags(maxNumSeqs)
  {
    hide PhaseCalled, Refilled, Divided, Merged, VictimList;
    EmptyPhase(v, RunningFlags(maxNumSeqs), phases[0]);
  }

  /** The last phase offers the batch to the waiting requests alone. */
  lemma LastPhase(v: Variant, maxNumSeqs: int, g: Guidance, lim: Limits, it: Iteration, s: Sys, s': Sys, plan: Plan)
    requires Iterated(v, maxNumSeqs, g, lim, it, s, s', plan) && OnlyWaiting(s)
    ensures it.phases != []
    ensures var i := |it.phases| - 1; var ph, f := it.phases[i], FlagsOf(v, maxNumSeqs, it.phases, i);
      && f.maxSequences == maxNumSeqs && TargetsOf(ph.begun, f.q) == Turnout(v, g, s) && ph.lim == lim
      && ph.begun.data == s.data && ph.begun.pool == s.pool && ph.begun.b == s.b && ph.begun.limit == s.limit
  {
    hide FirstDiscarded, GaveUp, InThree, InTwo, SortedBy, Partition, Between;
    NothingBefore(v, maxNumSeqs, g, lim, it, s, s', plan);
    if v.InferCept? {
      LastOfThree(v, maxNumSeqs, g, it.pre, it.phases, it.chosen, lim, s', plan);
      assert |it.phases| == 3 by { PhaseCount(v, maxNumSeqs, g, lim, it, s, s', plan); }
    } else {
      LastOfTwo(v, maxNumSeqs, g, it.pre, it.phases, it.chosen, lim, s', plan);
      assert |it.phases| == 2 by { PhaseCount(v, maxNumSeqs, g, lim, it, s, s', plan); }
      NothingMore(s.waiting);
    }
  }

  lemma PhaseCount(v: Variant, maxNumSeqs: int, g: Guidance, lim: Limits, it: Iteration, s: Sys, s': Sys, plan: Plan)
    requires Iterated(v, maxNumSeqs, g, lim, it, s, s', plan)
    ensures |it.phases| == if v.InferCept? then 3 else 2
  {
  }

  /** When requests wait and there are no others, the first of them by priority is in the batch as soon as it is
      within the prompt limit and the blocks of its tokens, or of as many as fit the batch, are free. */
  lemma WaitingIsScheduled(v: Variant, maxNumSeqs: int, g: Guidance, lim: Limits, it: Iteration, s: Sys, l: Log,
                           s': Sys, plan: Plan, x: Id)
    requires Iterated(v, maxNumSeqs, g, lim, it, s, s', plan) && Sound(s, l) && OnlyWaiting(s)
    requires maxNumSeqs >= 1 && lim.tokens >= 1 && lim.swapIn >= 0
    requires Turnout(v, g, s) != [] && x == Turnout(v, g, s)[0] && x in s.data && s.data[x].Len() <= s.limit
    requires var n := if s.data[x].Len() < lim.tokens then s.data[x].Len() else lim.tokens;
      s.b > 0 && CeilDiv(n, s.b) <= |s.pool.gpu.free|
    ensures var n := if s.data[x].Len() < lim.tokens then s.data[x].Len() else lim.tokens;
      x in plan.scheduled && Aboard(s', x, s.data[x].(runningInflight := n, status := Status.Running))
  {
    hide Iterated, OnlyWaiting, Turnout, Sound, Need;
    var i := |it.phases| - 1;
    LastPhase(v, maxNumSeqs, g, lim, it, s, s', plan);
    TurnoutWaits(v, g, s, l, x);
    var n := if s.data[x].Len() < lim.tokens then s.data[x].Len() else lim.tokens;
    WaitingNeeds(s, l, it.phases[i].begun, x, n);
    FirstInBatch(v, maxNumSeqs, g, lim, it, s, s', plan, i, x);
    assert s.data[x].Populate(0, 0, n).(status := Status.Running) ==
      s.data[x].(runningInflight := n, status := Status.Running);
  }

  lemma TurnoutWaits(v: Variant, g: Guidance, s: Sys, l: Log, x: Id)
    requires x in Turnout(v, g, s) && Sound(s, l) && OnlyWaiting(s)
    ensures x in s.place && s.place[x].AtWaiting?
  {
    hide SortedBy, Partition, PoolOk, Exclusive, AllGood, Refines, Journal;
    SortedPermutes(s.waiting, g.waiting);
    SortedPermutes(s.waiting, g.targets);
    PartitionPermutes(SortedBy(s.waiting, g.targets), Due(s.data, g.promoted));
    assert x in multiset(Turnout(v, g, s));
    assert multiset(Turnout(v, g, s)) == multiset(s.waiting);
    assert x in s.waiting;
  }

  lemma WaitingNeeds(s: Sys, l: Log, s1: Sys, x: Id, n: nat)
    requires Sound(s, l) && x in s.place && s.place[x].AtWaiting? && x in s.data
    requires n <= s.data[x].Len() && (s.data[x].Len() > 0 ==> n > 0)
    requires s1.data == s.data && s1.b == s.b && s.b > 0
    ensures s.data[x].swapLength == 0 && s.data[x].inflight == s.data[x].Len() > 0 && s.data[x].Idle()
    ensures Need(s1, x, 0, n) == CeilDiv(n, s.b)
  {
    hide PoolOk, Exclusive, Refines, Journal, Queues;
    assert GoodAt(s, x);
    CeilDivBounds(0, s.b);
  }
}
