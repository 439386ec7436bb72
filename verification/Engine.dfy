/** The engine: it schedules an iteration, runs the pending copies and the model on the real cache,
    pairs the sampled tokens with their requests, and lets the scheduler process them. */
module Engine {
  import opened Basics
  import opened Blocks
  import opened Sequences
  import opened Layouts
  import opened System
  import opened Memory
  import opened Steps
  import opened Rounds
  import opened Phases
  import opened Victims
  import opened Iterations
  import opened Ledgers
  import opened Worker
  import opened CacheWrites
  import opened Outputs
  import opened Sampling
  import opened BlockManager
  import opened CpuRooms
  import opened Demands
  import opened Chunks
  import opened Accounting
  import opened Execution
  import opened Schedulers
  import opened Events
  import opened Replies

  /** Aborting swapped request `x` frees a block to which a copy is still pending. */
  ghost predicate AbortTears(s: Sys, l: Log, x: Id) {
    x in s.swapped && Awaiting(s, l, x)
  }

  lemma AbortTearsIs(s: Sys, l: Log, x: Id)
    ensures AbortTears(s, l, x) <==> x in s.swapped && Awaiting(s, l, x)
  {
  }

  /** An event that frees blocks to which copies are still pending.  They can only be pending, and be
      freed, if a request was paused by swapping it out, its call has already returned, and it is then
      aborted or given up before the copies run. */
  ghost predicate Tears(s: Sys, l: Log, e: Event) {
    match e
    case AbortRequest(x) => AbortTears(s, l, x)
    case Iterate(guidance, _, _, _) => Hasty(s, l, guidance.discard)
    case AddRequest(_, _) => false
    case ResumeCall(_, _, _, _) => false
  }

  /** Request `x` got its own sample, and what the verdict on it asks for. */
  ghost predicate AnsweredAll(batch: map<Id, SeqRec>, data: map<Id, SeqRec>, place: map<Id, Place>, a: Answers, x: Id) {
    x in batch && x in data && x in place && Answered(batch[x], data[x], place[x], Sample(a.token(x), a.verdict(x)))
  }

  lemma AnsweredOne(batch: map<Id, SeqRec>, data: map<Id, SeqRec>, place: map<Id, Place>, a: Answers, x: Id)
    requires x in batch && x in data && x in place
    requires Answered(batch[x], data[x], place[x], Sample(a.token(x), a.verdict(x)))
    ensures AnsweredAll(batch, data, place, a, x)
  {
  }

  ghost predicate NoBeam(a: Answers) {
    forall x :: !a.kind(x).Beam?
  }

  lemma SampledAll(ids: seq<Id>, a: Answers)
    ensures |SamplesFor(ids, a)| == |ids|
    ensures forall i :: 0 <= i < |ids| ==> SamplesFor(ids, a)[i] == Sample(a.token(ids[i]), a.verdict(ids[i]))
  {
  }

  lemma BeamNever(ids: seq<Id>, a: Answers)
    requires NoBeam(a)
    ensures !exists x :: x in ids && a.kind(x).Beam?
  {
  }

  /** No beam search. */
  ghost predicate Plain(e: Event) {
    e.Iterate? ==> NoBeam(e.answers)
  }

  ghost predicate AllPlain(events: seq<Event>) {
    forall e :: e in events ==> Plain(e)
  }

  lemma TearsAbort(s: Sys, l: Log, x: Id)
    ensures Tears(s, l, AbortRequest(x)) <==> AbortTears(s, l, x)
  {
  }

  /** Without pending copies no event does harm. */
  lemma NothingToTear(s: Sys, l: Log, e: Event)
    requires l.outs == map[]
    ensures !Tears(s, l, e)
  {
  }

  /** The pause policy never asks for a swap, as with the policies that discard or preserve. */
  ghost predicate NeverSwaps(a: Answers) {
    forall x :: !(a.verdict(x).Pause? && a.verdict(x).mode.Swap?)
  }

  lemma SwapsNever(ids: seq<Id>, a: Answers)
    requires NeverSwaps(a)
    ensures NoSwaps(SamplesFor(ids, a))
  {
    forall s | s in SamplesFor(ids, a) && s.verdict.Pause? ensures !s.verdict.mode.Swap? {
      var i :| 0 <= i < |ids| && SamplesFor(ids, a)[i] == s;
      assert s.verdict == a.verdict(ids[i]);
    }
  }

  ghost predicate Calm(e: Event) {
    e.Iterate? ==> NeverSwaps(e.answers)
  }

  ghost predicate AllCalm(events: seq<Event>) {
    forall e :: e in events ==> Calm(e)
  }

  /** Nothing is to be copied out, and no request will be paused by swapping it out. */
  ghost predicate Quiet(events: seq<Event>, outs: map<nat, nat>) {
    AllCalm(events) && outs == map[]
  }

  lemma QuietIs(events: seq<Event>, outs: map<nat, nat>)
    ensures Quiet(events, outs) <==> AllCalm(events) && outs == map[]
  {
  }

  /** By how many tokens an event may lengthen `n` requests. */
  function Cost(e: Event, n: nat): nat {
    match e
    case AddRequest(_, prompt) => |prompt|
    case ResumeCall(_, ret, _, _) => |ret|
    case AbortRequest(_) => 0
    case Iterate(_, _, _, _) => n
  }

  /** By how many tokens the events, from the first `i` on, may lengthen what are `n` requests so far. */
  function Demand(events: seq<Event>, i: nat, n: nat): nat
    requires i <= |events|
    decreases |events| - i
  {
    if i == |events| then 0
    else Cost(events[i], n) + Demand(events, i + 1, if events[i].AddRequest? then n + 1 else n)
  }

  lemma {:induction false} DemandMono(events: seq<Event>, i: nat, m: nat, n: nat)
    requires i <= |events| && m <= n
    ensures Demand(events, i, m) <= Demand(events, i, n)
    decreases |events| - i
  {
    if i < |events| {
      DemandMono(events, i + 1, if events[i].AddRequest? then m + 1 else m, if events[i].AddRequest? then n + 1 else n);
    }
  }

  lemma DemandNext(events: seq<Event>, i: nat, n: nat, n': nat)
    requires i < |events| && n' <= (if events[i].AddRequest? then n + 1 else n)
    ensures Cost(events[i], n) + Demand(events, i + 1, n') <= Demand(events, i, n)
  {
    DemandMono(events, i + 1, n', if events[i].AddRequest? then n + 1 else n);
  }

  /** The older scheduler never stops the engine.  The newer one may, in an iteration that starts without
      room on the CPU for what the preserved paused requests hold on the GPU. */
  ghost predicate MayStop(m: Moment, e: Event) {
    e.Iterate? && !Roomy(m.s.pool, m.s.paused)
  }

  /** The CPU blocks suffice for all tokens that are there and that the events may bring. */
  ghost predicate Affordable(data: map<Id, SeqRec>, events: seq<Event>, p: Pool) {
    Total(data) + Demand(events, 0, |data|) <= |p.cpu.refs|
  }

  lemma AffordableIs(data: map<Id, SeqRec>, events: seq<Event>, p: Pool)
    ensures Affordable(data, events, p) <==> Total(data) + Demand(events, 0, |data|) <= |p.cpu.refs|
  {
  }

  lemma CostIs(e: Event, n: nat)
    ensures Cost(e, n) == match e
      case AddRequest(_, prompt) => |prompt|
      case ResumeCall(_, ret, _, _) => |ret|
      case AbortRequest(_) => 0
      case Iterate(_, _, _, _) => n
  {
  }

  /** What the predicates on events say of an iteration. */
  lemma IterateIs(s: Sys, l: Log, g: Guidance, swapIn: nat, swapOut: nat, a: Answers)
    ensures var e := Iterate(g, swapIn, swapOut, a);
      && (Tears(s, l, e) <==> Hasty(s, l, g.discard)) && (MayStop(Moment(s, l), e) <==> !Roomy(s.pool, s.paused))
      && (Plain(e) ==> NoBeam(a)) && (Calm(e) ==> NeverSwaps(a))
  {
  }

  lemma KindAt(events: seq<Event>, i: nat)
    requires i < |events|
    ensures (AllPlain(events) ==> Plain(events[i])) && (AllCalm(events) ==> Calm(events[i]))
  {
  }

  lemma RoomForAll(m: Moment, e: Event, p: Pool)
    requires Sound(m.s, m.l) && Between(m.s, [], []) && SameArenas(p, m.s.pool) && Total(m.s.data) <= |p.cpu.refs|
    ensures !MayStop(m, e)
  {
    TotalRoomy(m.s);
  }

  lemma Unharmed(s: Sys, l: Log, e: Event)
    requires e.AddRequest? || e.ResumeCall?
    ensures !Tears(s, l, e)
  {
  }

  lemma SameSize(data: map<Id, SeqRec>, data': map<Id, SeqRec>)
    requires data'.Keys == data.Keys
    ensures |data'| == |data|
  {
    assert |data'.Keys| == |data.Keys|;
  }

  lemma ScheduledFields(s: Sys, s': Sys, ignored: seq<Id>)
    requires Passed(s, s', ignored)
    ensures AllGrow(s.data, s'.data) && s'.data.Keys == s.data.Keys && SameArenas(s.pool, s'.pool)
    ensures Total(s'.data) == Total(s.data) && |s'.data| == |s.data|
  {
    TotalSame(s.data, s'.data);
  }

  lemma AdvancedTotal(data: map<Id, SeqRec>, data': map<Id, SeqRec>, scheduled: seq<Id>)
    requires AllAdvanced(data, data', scheduled) && data'.Keys == data.Keys
    ensures Total(data') <= Total(data) + |data|
  {
    TotalGrows(data, data');
  }

  lemma NothingForwarded(data: map<Id, SeqRec>, logs: Logs)
    requires AllExact(data, logs)
    ensures AllRead(data, logs, []) && AllAdvanced(data, data, [])
    ensures Total(data) <= Total(data) + |data|
  {
  }

  lemma ArrivedTotal(s: Sys, x: Id, prompt: seq<Token>)
    requires x !in s.data
    ensures Total(Arrived(s, x, prompt).data) == Total(s.data) + |prompt|
    ensures |Arrived(s, x, prompt).data| == |s.data| + 1
  {
    TotalNew(s.data, x, Arrived(s, x, prompt).data[x]);
  }

  lemma ResumedTotal(s: Sys, x: Id, tokens: seq<Token>)
    requires x in s.data && x in s.paused
    ensures Total(Resumed(s, x, tokens).data) == Total(s.data) + |tokens| && |Resumed(s, x, tokens).data| == |s.data|
  {
    TotalSet(s.data, x, Resumed(s, x, tokens).data[x]);
  }

  lemma DepartedTotal(s: Sys, x: Id, status: Status, pool: Pool)
    requires x in s.data
    ensures Total(Departed(s, x, status, pool).data) == Total(s.data) && |Departed(s, x, status, pool).data| == |s.data|
  {
    TotalSet(s.data, x, Departed(s, x, status, pool).data[x]);
  }

  lemma AbortKeeps(s: Sys, x: Id, pool: Pool, logs: Logs)
    requires x in s.data && (x in s.waiting || x in s.running || x in s.swapped) && AllExact(s.data, logs)
    requires pool.tables == s.pool.tables - {x} && SameArenas(s.pool, pool)
    ensures var s' := Departed(s, x, FinishedAborted, pool);
      && Aborted(s, s', x) && AllGrow(s.data, s'.data) && Total(s'.data) == Total(s.data)
      && |s'.data| == |s.data| && AllExact(s'.data, Surviving(s'.data, logs))
  {
    hide *;
    AbortedIs(s, x, pool);
    DepartedGrows(s, x, FinishedAborted, pool);
    DepartedTotal(s, x, FinishedAborted, pool);
    ExactDeparted(s, x, FinishedAborted, pool, logs);
  }

  lemma SliceShorter(s: seq<Token>, n: int)
    ensures |PySlice(s, n)| <= |s|
  {
  }

  /** The moments before the events handled so far: sound states, the first one as given, in which the
      requests only grow. */
  ghost predicate Chronicle(trace: seq<Moment>, events: seq<Event>, first: Moment) {
    && |trace| <= |events| && (trace != [] ==> trace[0] == first)
    && (forall k :: 0 <= k < |trace| ==> Sound(trace[k].s, trace[k].l) && Between(trace[k].s, [], []))
    && (forall k :: 0 < k < |trace| ==> AllGrow(trace[k - 1].s.data, trace[k].s.data))
  }

  /** Some event in the trace tore pending copies. */
  ghost predicate TornIn(trace: seq<Moment>, events: seq<Event>) {
    exists k :: 0 <= k < |trace| <= |events| && Tears(trace[k].s, trace[k].l, events[k])
  }

  /** The newer scheduler stopped at the trace's last event, for lack of room. */
  ghost predicate StoppedIn(trace: seq<Moment>, events: seq<Event>) {
    0 < |trace| <= |events| && MayStop(trace[|trace| - 1], events[|trace| - 1])
  }

  lemma ChronicleStart(events: seq<Event>, first: Moment)
    ensures Chronicle([], events, first)
  {
  }

  lemma ChronicleNext(trace: seq<Moment>, m: Moment, events: seq<Event>, first: Moment)
    requires Chronicle(trace, events, first) && |trace| < |events|
    requires Sound(m.s, m.l) && Between(m.s, [], []) && (trace == [] ==> m == first)
    requires trace != [] ==> AllGrow(trace[|trace| - 1].s.data, m.s.data)
    ensures Chronicle(trace + [m], events, first)
    ensures TornIn(trace, events) || Tears(m.s, m.l, events[|trace|]) ==> TornIn(trace + [m], events)
    ensures MayStop(m, events[|trace|]) ==> StoppedIn(trace + [m], events)
    ensures (trace + [m])[|trace|] == m
  {
    hide Sound, Between, AllGrow, Tears, MayStop;
    var t := trace + [m];
    if k :| 0 <= k < |trace| <= |events| && Tears(trace[k].s, trace[k].l, events[k]) {
      assert t[k] == trace[k];
    } else {
      assert t[|trace|] == m;
    }
  }

  class LLMEngine {
    const scheduler: Scheduler
    ghost var cache: Mem
    /** What the worker's lists have held of each request since it last started over. */
    ghost var forwarded: Logs
    /** Some deferred copy of an earlier iteration was lost to another one. */
    ghost var corrupt: bool
    /** Since the last iteration some event has freed blocks to which copies are pending. */
    ghost var torn: bool
    /** The run left the model: the combined phase would have run a request that it had just restarted,
        or beam search was asked for. */
    var stopped: bool

    constructor (v: Variant, blockSize: nat, numGpuBlocks: nat, numCpuBlocks: nat, limit: int, maxSeqs: int,
                 ghost mem: Mem)
      requires blockSize > 0
      ensures Valid() && !stopped && fresh(scheduler) && fresh(scheduler.mgr)
      ensures fresh(scheduler.mgr.gpu) && fresh(scheduler.mgr.cpu)
      ensures scheduler.variant == v && !corrupt && !torn
      ensures scheduler.data == map[] && scheduler.blocksToSwapOut == map[]
    {
      scheduler := new Scheduler(v, blockSize, numGpuBlocks, numCpuBlocks, limit, maxSeqs, mem);
      cache, forwarded, corrupt, torn, stopped := mem, map[], false, false, false;
      new;
    }

    ghost predicate Valid()
      reads this, scheduler, scheduler.mgr, scheduler.mgr.gpu, scheduler.mgr.cpu
    {
      !stopped ==>
        && scheduler.Valid() && Between(scheduler.View(), [], [])
        && scheduler.blocksToSwapIn == map[] && !scheduler.clash
        && AllExact(scheduler.data, forwarded)
        && (!corrupt ==> SameMem(cache, scheduler.start))
        && (scheduler.variant.V2? && !torn ==> Anchored(scheduler.View(), scheduler.Journaled()))
    }

    lemma Going()
      requires Valid() && !stopped
      ensures scheduler.Valid() && Between(scheduler.View(), [], [])
      ensures scheduler.blocksToSwapIn == map[] && !scheduler.clash
      ensures AllExact(scheduler.data, forwarded)
      ensures !corrupt ==> SameMem(cache, scheduler.start)
      ensures scheduler.variant.V2? && !torn ==> Anchored(scheduler.View(), scheduler.Journaled())
    {
    }

    lemma Proven()
      requires scheduler.Valid() && Between(scheduler.View(), [], [])
      requires scheduler.blocksToSwapIn == map[] && !scheduler.clash
      requires AllExact(scheduler.data, forwarded)
      requires !corrupt ==> SameMem(cache, scheduler.start)
      requires scheduler.variant.V2? && !torn ==> Anchored(scheduler.View(), scheduler.Journaled())
      ensures Valid()
    {
    }

    lemma Stopped()
      requires stopped
      ensures Valid()
    {
    }

    /** Runs the pending copies late and writes the batch's keys and values. */
    method Execute(ghost cells: seq<Cell>)
      requires scheduler.Valid() && scheduler.View().b > 0
      requires (!corrupt ==> !scheduler.clash && SameMem(cache, scheduler.start))
      requires RowsReach(scheduler.View(), StoreAll(scheduler.now, scheduler.View().b, cells))
      modifies this`cache, scheduler`blocksToSwapOut, scheduler`blocksToSwapIn, scheduler`start, scheduler`now
      modifies scheduler`clash
      ensures scheduler.Valid() && RowsReach(scheduler.View(), scheduler.now)
      ensures scheduler.blocksToSwapOut == map[] && scheduler.blocksToSwapIn == map[] && !scheduler.clash
      ensures !corrupt ==> SameMem(cache, scheduler.start)
    {
      hide *;
      ghost var l, b := scheduler.Journaled(), scheduler.View().b;
      scheduler.Known();
      scheduler.ShownPending();
      scheduler.ShownMemory();
      JournalReplays(scheduler.View(), l);
      if !corrupt {
        DeferredCopies(l, cache);
        StoreSame(CopyIn(CopyOut(cache, l.outs), l.ins), l.now, b, cells);
      }
      cache := StoreAll(CopyIn(CopyOut(cache, scheduler.blocksToSwapOut), scheduler.blocksToSwapIn), b, cells);
      scheduler.Settled(StoreAll(scheduler.now, b, cells));
    }

    /** One engine step.  `batch` are the records of all requests when the batch was forwarded, `logs`
        what the worker had then been given of each, and `copies` the pending copies of this iteration. */
    method Step(guidance: Guidance, swapIn: nat, swapOut: nat, answers: Answers)
      returns (plan: Plan, ghost batch: map<Id, SeqRec>, ghost logs: Logs, ghost copies: Log, ghost h: Happening)
      requires Valid() && !stopped
      modifies this, scheduler, scheduler.mgr, scheduler.mgr.gpu, scheduler.mgr.cpu
      ensures Valid() && (old(corrupt) ==> corrupt) && (!stopped ==> !torn)
      ensures stopped && NoBeam(answers) ==>
        scheduler.variant.V2? && !Roomy(old(scheduler.View()).pool, old(scheduler.View()).paused)
      ensures !stopped && !Meets(copies.outs, copies.ins) ==> corrupt == old(corrupt)
      ensures !stopped && scheduler.variant.V2? && corrupt && !old(corrupt) ==>
        old(torn) || Hasty(old(scheduler.View()), old(scheduler.Journaled()), guidance.discard)
      ensures !stopped ==>
        AllGrow(old(scheduler.data), scheduler.data) && scheduler.data.Keys == old(scheduler.data.Keys)
      ensures !stopped ==> Total(scheduler.data) <= Total(old(scheduler.data)) + |old(scheduler.data)|
      ensures !stopped ==> SameArenas(old(scheduler.mgr.View()), scheduler.mgr.View())
      ensures !stopped ==> AllRead(batch, logs, plan.scheduled) && AllAdvanced(batch, scheduler.data, plan.scheduled)
      ensures !stopped && NeverSwaps(answers) ==> scheduler.blocksToSwapOut == map[]
      ensures !stopped ==>
        forall x :: x in WithOutput(batch, plan.scheduled) ==>
          AnsweredAll(batch, scheduler.data, scheduler.place, answers, x)
      ensures !stopped ==> h.plan == plan && h.mid.data == batch
      ensures !stopped ==>
        Ran(scheduler.variant, scheduler.maxNumSeqs, guidance, Allowance(scheduler.variant, swapIn, swapOut), answers,
            h, old(scheduler.View()), scheduler.View())
    {
      hide *;
      ghost var s0, data0 := scheduler.View(), scheduler.data;
      ghost var it;
      plan, copies, it := Decide(guidance, swapIn, swapOut);
      batch, logs := scheduler.data, forwarded;
      h := Happening(it, scheduler.View(), plan);
      if stopped {
        return;
      }
      scheduler.ShownData();
      ghost var lim := Allowance(scheduler.variant, swapIn, swapOut);
      ghost var arenas := scheduler.mgr.View();
      if plan.scheduled == [] && scheduler.blocksToSwapOut == map[] && scheduler.blocksToSwapIn == map[] {
        NothingToAnswer(batch);
        NothingForwarded(batch, forwarded);
        Idle();
        scheduler.Known();
        NothingToReply(scheduler.View(), scheduler.Journaled(), plan, answers);
        RanIs(scheduler.variant, scheduler.maxNumSeqs, guidance, lim, answers, h, s0, scheduler.View());
        return;
      }
      logs := Serve(plan, answers);
      if !stopped {
        RanIs(scheduler.variant, scheduler.maxNumSeqs, guidance, lim, answers, h, s0, scheduler.View());
        GrowTrans(data0, batch, scheduler.data);
        ArenasTrans(old(scheduler.mgr.View()), arenas, scheduler.mgr.View());
      }
    }

    /** Lets the scheduler choose the batch.  `copies` are then the iteration's pending copies. */
    method Decide(guidance: Guidance, swapIn: nat, swapOut: nat)
      returns (plan: Plan, ghost copies: Log, ghost it: Iteration)
      requires Valid() && !stopped
      modifies this`forwarded, this`corrupt, this`torn, this`stopped, scheduler, scheduler.mgr, scheduler.mgr.gpu
      modifies scheduler.mgr.cpu
      ensures stopped ==> Valid() && scheduler.variant.V2?
      ensures stopped ==> !Roomy(old(scheduler.View()).pool, old(scheduler.View()).paused)
      ensures !stopped ==>
        scheduler.Valid() && Between(scheduler.View(), [], plan.scheduled) && WellMarked(scheduler.data, plan)
      ensures !stopped ==> (!corrupt ==> !scheduler.clash && SameMem(cache, scheduler.start)) && !torn
      ensures !stopped ==> AllExact(scheduler.data, forwarded)
      ensures !stopped ==> copies == scheduler.Journaled()
      ensures !stopped && !Meets(copies.outs, copies.ins) ==> corrupt == old(corrupt)
      ensures !stopped && scheduler.variant.V2? && corrupt && !old(corrupt) ==>
        old(torn) || Hasty(old(scheduler.View()), old(scheduler.Journaled()), guidance.discard)
      ensures !stopped ==>
        AllGrow(old(scheduler.data), scheduler.data) && scheduler.data.Keys == old(scheduler.data.Keys)
      ensures !stopped ==>
        Total(scheduler.data) == Total(old(scheduler.data)) && |scheduler.data| == |old(scheduler.data)|
      ensures (old(corrupt) ==> corrupt) && (!stopped ==> SameArenas(old(scheduler.mgr.View()), scheduler.mgr.View()))
      ensures !stopped ==>
        Iterated(scheduler.variant, scheduler.maxNumSeqs, guidance, Allowance(scheduler.variant, swapIn, swapOut), it,
                 old(scheduler.View()), scheduler.View(), plan)
    {
      hide *;
      Going();
      ghost var s0 := scheduler.View();
      scheduler.ShownData();
      scheduler.ShownPool();
      scheduler.ShownRoom();
      scheduler.Known();
      var numBatched, hazard;
      plan, numBatched, hazard, it := scheduler.ScheduleBatch(guidance, swapIn, swapOut);
      copies := scheduler.Journaled();
      if hazard {
        stopped := true;
        Stopped();
        return;
      }
      scheduler.Known();
      scheduler.ShownPending();
      scheduler.ShownData();
      scheduler.ShownPool();
      ghost var s1 := scheduler.View();
      JournalMeets(s1, copies);
      ScheduledFields(s0, s1, plan.ignored);
      ExactScheduled(s0, s1, plan.ignored, forwarded);
      forwarded := Surviving(scheduler.data, forwarded);
      corrupt := corrupt || scheduler.clash;
      torn := false;
    }

    /** Nothing was scheduled, and nothing is to be copied. */
    lemma Idle()
      requires scheduler.Valid() && Between(scheduler.View(), [], [])
      requires scheduler.blocksToSwapOut == map[] && scheduler.blocksToSwapIn == map[]
      requires (!corrupt ==> !scheduler.clash && SameMem(cache, scheduler.start)) && AllExact(scheduler.data, forwarded)
      ensures Valid()
    {
      hide *;
      scheduler.Known();
      scheduler.ShownPending();
      JournalMeets(scheduler.View(), scheduler.Journaled());
      NothingPending(scheduler.View(), scheduler.Journaled());
      Proven();
    }

    /** Forwards the batch, and answers it.  `logs` is what the worker had then been given. */
    method Serve(plan: Plan, answers: Answers) returns (ghost logs: Logs)
      requires scheduler.Valid() && Between(scheduler.View(), [], plan.scheduled) && WellMarked(scheduler.data, plan)
      requires !corrupt ==> !scheduler.clash && SameMem(cache, scheduler.start)
      requires AllExact(scheduler.data, forwarded) && !stopped
      modifies this`cache, this`forwarded, this`stopped, scheduler, scheduler.mgr, scheduler.mgr.gpu, scheduler.mgr.cpu
      ensures Valid() && (stopped ==> !NoBeam(answers))
      ensures !stopped ==> AllRead(old(scheduler.data), logs, plan.scheduled)
      ensures !stopped ==> AllAdvanced(old(scheduler.data), scheduler.data, plan.scheduled)
      ensures !stopped ==>
        AllGrow(old(scheduler.data), scheduler.data) && scheduler.data.Keys == old(scheduler.data.Keys)
      ensures !stopped ==> Total(scheduler.data) <= Total(old(scheduler.data)) + |old(scheduler.data)|
      ensures !stopped ==> SameArenas(old(scheduler.mgr.View()), scheduler.mgr.View())
      ensures !stopped && NeverSwaps(answers) ==> scheduler.blocksToSwapOut == map[]
      ensures !stopped ==> forall x :: x in WithOutput(old(scheduler.data), plan.scheduled) ==>
        AnsweredAll(old(scheduler.data), scheduler.data, scheduler.place, answers, x)
      ensures !stopped ==> RepliedTo(old(scheduler.View()), scheduler.View(), plan, answers)
    {
      hide *;
      ghost var batch := scheduler.data;
      var inputs := Forward(plan);
      logs := forwarded;
      stopped := Answer(plan, inputs.groups, answers);
      if stopped {
        Stopped();
        return;
      }
      AdvancedTotal(batch, scheduler.data, plan.scheduled);
      ExactAnswered(batch, scheduler.data, plan.scheduled, forwarded);
      forwarded := Surviving(scheduler.data, forwarded);
      Proven();
    }

    /** Samples the batch and lets the scheduler process the outputs; `failed` when beam search is asked for. */
    method Answer(plan: Plan, groups: seq<Id>, answers: Answers) returns (failed: bool)
      requires scheduler.Valid() && Between(scheduler.View(), [], plan.scheduled)
      requires RowsReach(scheduler.View(), scheduler.now)
      requires scheduler.blocksToSwapOut == map[] && scheduler.blocksToSwapIn == map[]
      requires groups == WithOutput(scheduler.data, plan.scheduled)
      modifies scheduler`running, scheduler`paused, scheduler`data, scheduler`place
      modifies scheduler`blocksToSwapOut, scheduler`now, scheduler`clash, scheduler.mgr, scheduler.mgr.gpu
      modifies scheduler.mgr.cpu
      ensures failed ==> !NoBeam(answers)
      ensures !failed ==> scheduler.Valid() && Between(scheduler.View(), [], []) && scheduler.blocksToSwapIn == map[]
      ensures !failed ==> scheduler.clash == old(scheduler.clash) && AllGrow(old(scheduler.data), scheduler.data)
      ensures !failed ==> AllAdvanced(old(scheduler.data), scheduler.data, plan.scheduled)
      ensures !failed ==> scheduler.data.Keys == old(scheduler.data.Keys)
      ensures !failed ==> SameArenas(old(scheduler.mgr.View()), scheduler.mgr.View())
      ensures !failed ==> Anchored(scheduler.View(), scheduler.Journaled())
      ensures !failed && NeverSwaps(answers) ==> scheduler.blocksToSwapOut == map[]
      ensures !failed ==> forall x :: x in groups ==>
        AnsweredAll(old(scheduler.data), scheduler.data, scheduler.place, answers, x)
      ensures !failed ==> RepliedTo(old(scheduler.View()), scheduler.View(), plan, answers)
    {
      hide *;
      ghost var batch, mid := scheduler.data, scheduler.View();
      scheduler.ShownData();
      scheduler.ShownPool();
      var outputs;
      outputs, failed := SampleAll(groups, answers);
      SampledAll(groups, answers);
      if failed {
        if NoBeam(answers) { BeamNever(groups, answers); }
        return;
      }
      scheduler.ProcessOutputs(plan.scheduled, outputs);
      scheduler.ShownData();
      scheduler.ShownPool();
      RepliedToIs(mid, scheduler.View(), plan, answers, groups, outputs);
      if NeverSwaps(answers) { SwapsNever(groups, answers); }
      forall x | x in groups ensures AnsweredAll(batch, scheduler.data, scheduler.place, answers, x) {
        var i :| 0 <= i < |groups| && groups[i] == x;
        AnsweredOne(batch, scheduler.data, scheduler.place, answers, x);
      }
    }

    /** Hands the batch to the worker, which runs the copies and the model. */
    method Forward(plan: Plan) returns (inputs: Inputs)
      requires scheduler.Valid() && Between(scheduler.View(), [], plan.scheduled) && WellMarked(scheduler.data, plan)
      requires !corrupt ==> !scheduler.clash && SameMem(cache, scheduler.start)
      requires AllExact(scheduler.data, forwarded)
      modifies this`cache, this`forwarded
      modifies scheduler`blocksToSwapOut, scheduler`blocksToSwapIn, scheduler`start, scheduler`now, scheduler`clash
      ensures scheduler.Valid() && RowsReach(scheduler.View(), scheduler.now)
      ensures scheduler.blocksToSwapOut == map[] && scheduler.blocksToSwapIn == map[] && !scheduler.clash
      ensures !corrupt ==> SameMem(cache, scheduler.start)
      ensures inputs.groups == WithOutput(scheduler.data, plan.scheduled)
      ensures Shaped(inputs) && forwarded == Lengthened(scheduler.data, old(forwarded), inputs)
      ensures AllRead(scheduler.data, forwarded, plan.scheduled)
    {
      hide *;
      scheduler.Known();
      scheduler.ShownData();
      scheduler.ShownPool();
      ghost var s, l := scheduler.View(), scheduler.Journaled();
      BatchTables(s, l, plan.scheduled);
      MarkedSize(s.data, plan);
      var metas := MetasOf(plan, scheduler.data, scheduler.mgr.blockTables);
      scheduler.ShownMemory();
      ForwardReaches(s, l, plan);
      SamplesPair(s, l, plan);
      inputs := PrepareInputs(scheduler.mgr.blockSize, metas);
      PreparedGroups(scheduler.mgr.blockSize, metas, inputs);
      ForwardedAll(s, l, plan, forwarded, inputs);
      forwarded := Lengthened(s.data, forwarded, inputs);
      Execute(AllCells(s.b, Pass(metas, true)) + AllCells(s.b, Pass(metas, false)));
    }

    /** Samples every group; each group is one sequence here. */
    method SampleAll(ids: seq<Id>, answers: Answers) returns (outputs: seq<Sample>, failed: bool)
      ensures !failed ==> outputs == SamplesFor(ids, answers)
      ensures failed <==> exists x :: x in ids && answers.kind(x).Beam?
    {
      var groups := seq(|ids|, i requires 0 <= i < |ids| => Group([ids[i]], answers.kind(ids[i]), 1));
      outputs := [];
      assert forall i :: 0 <= i < |ids| ==> groups[i] in groups && groups[i].kind == answers.kind(ids[i]);
      var r := Simulate(groups, 0, answers.token);
      failed := r.None?;
      if failed {
        var g :| g in groups && g.kind.Beam?;
        var i :| 0 <= i < |groups| && groups[i] == g;
        assert ids[i] in ids;
      }
      if !failed {
        outputs := seq(|ids|, i requires 0 <= i < |ids| => Sample(r.value[i][0].token, answers.verdict(ids[i])));
      }
    }

    /** Handles one event.  The source relies on fresh request ids and prompts that are not empty. */
    method Handle(e: Event) returns (ghost h: Happening)
      requires Valid() && !stopped
      modifies this, scheduler, scheduler.mgr, scheduler.mgr.gpu, scheduler.mgr.cpu
      ensures Valid() && (old(corrupt) ==> corrupt)
      ensures stopped && Plain(e) ==>
        scheduler.variant.V2? && MayStop(Moment(old(scheduler.View()), old(scheduler.Journaled())), e)
      ensures !stopped ==> AllGrow(old(scheduler.data), scheduler.data)
      ensures !stopped ==> Total(scheduler.data) <= Total(old(scheduler.data)) + Cost(e, |old(scheduler.data)|)
      ensures !stopped ==>
        |scheduler.data| <= if e.AddRequest? then |old(scheduler.data)| + 1 else |old(scheduler.data)|
      ensures !stopped ==> SameArenas(old(scheduler.mgr.View()), scheduler.mgr.View())
      ensures !stopped ==>
        (torn <==> !e.Iterate? && (old(torn) || Tears(old(scheduler.View()), old(scheduler.Journaled()), e)))
      ensures !stopped && corrupt && !old(corrupt) && scheduler.variant.V2? ==>
        old(torn) || Tears(old(scheduler.View()), old(scheduler.Journaled()), e)
      ensures !stopped && Calm(e) && old(scheduler.blocksToSwapOut) == map[] ==> scheduler.blocksToSwapOut == map[]
      ensures !stopped ==>
        Handled(scheduler.variant, scheduler.maxNumSeqs, e, h, old(scheduler.View()), scheduler.View())
    {
      hide *;
      Going();
      scheduler.ShownData();
      scheduler.ShownPool();
      ghost var s, l := scheduler.View(), scheduler.Journaled();
      h := Happening(Iteration(s, s, [], [], []), s, Plan([], [], []));
      GrowSelf(s.data);
      ArenasSame(s.pool);
      CostIs(e, |s.data|);
      match e {
        case AddRequest(x, prompt) =>
          Unharmed(s, l, e);
          AddOne(x, prompt);
        case ResumeCall(x, ret, maxModelLen, maxTokens) =>
          Unharmed(s, l, e);
          ResumeOne(x, ret, maxModelLen, maxTokens);
        case AbortRequest(x) =>
          TearsAbort(s, l, x);
          AbortOne(x);
        case Iterate(guidance, swapIn, swapOut, answers) =>
          IterateIs(s, l, guidance, swapIn, swapOut, answers);
          ghost var batch, logs, copies;
          var plan;
          plan, batch, logs, copies, h := Step(guidance, swapIn, swapOut, answers);
          if !stopped { SameSize(s.data, scheduler.data); }
      }
      if !stopped {
        HandledIs(scheduler.variant, scheduler.maxNumSeqs, e, h, s, scheduler.View());
      }
    }

    method AddOne(x: Id, prompt: seq<Token>)
      requires Valid() && !stopped
      modifies this`forwarded, scheduler`waiting, scheduler`data, scheduler`place
      ensures Valid() && AllGrow(old(scheduler.data), scheduler.data)
      ensures Total(scheduler.data) <= Total(old(scheduler.data)) + |prompt|
      ensures |scheduler.data| <= |old(scheduler.data)| + 1
      ensures Added(old(scheduler.View()), scheduler.View(), x, prompt)
    {
      hide *;
      Going();
      scheduler.ShownData();
      ghost var s := scheduler.View();
      GrowSelf(s.data);
      if x in scheduler.data || prompt == [] { NotAdded(s, x, prompt); }
      if x !in scheduler.data && prompt != [] {
        scheduler.AddSeqGroup(x, prompt);
        AddedIs(s, x, prompt);
        ArrivedGrows(s, x, prompt);
        ArrivedTotal(s, x, prompt);
        ExactArrived(s, x, prompt, forwarded);
        scheduler.ShownData();
        forwarded := Surviving(scheduler.data, forwarded);
      }
      Proven();
    }

    method ResumeOne(x: Id, ret: seq<Token>, maxModelLen: int, maxTokens: int)
      requires Valid() && !stopped
      modifies this`forwarded
      modifies scheduler`waiting, scheduler`running, scheduler`swapped, scheduler`paused, scheduler`data
      modifies scheduler`place
      ensures Valid() && AllGrow(old(scheduler.data), scheduler.data)
      ensures Total(scheduler.data) <= Total(old(scheduler.data)) + |ret| && |scheduler.data| == |old(scheduler.data)|
      ensures Returned(old(scheduler.View()), scheduler.View(), x, ret, maxModelLen, maxTokens)
    {
      hide *;
      Going();
      scheduler.ShownData();
      ghost var s := scheduler.View();
      GrowSelf(s.data);
      if x !in s.paused { NotReturned(s, x, ret, maxModelLen, maxTokens); }
      var known := scheduler.ResumeRequest(x, ret, maxModelLen, maxTokens);
      scheduler.ShownData();
      if known {
        ghost var tokens := PySlice(ret, Allowed(old(scheduler.data)[x], |ret|, maxModelLen, maxTokens));
        ReturnedIs(s, x, ret, maxModelLen, maxTokens);
        ResumedGrows(s, x, tokens);
        ResumedTotal(s, x, tokens);
        SliceShorter(ret, Allowed(old(scheduler.data)[x], |ret|, maxModelLen, maxTokens));
        ExactResumed(s, x, tokens, forwarded);
        forwarded := Surviving(scheduler.data, forwarded);
      }
      Proven();
    }

    method AbortOne(x: Id)
      requires Valid() && !stopped
      modifies this`forwarded, this`torn, scheduler`waiting, scheduler`running, scheduler`swapped, scheduler`data
      modifies scheduler`place
      modifies scheduler.mgr, scheduler.mgr.gpu, scheduler.mgr.cpu
      ensures Valid() && AllGrow(old(scheduler.data), scheduler.data)
      ensures Total(scheduler.data) == Total(old(scheduler.data)) && |scheduler.data| == |old(scheduler.data)|
      ensures SameArenas(old(scheduler.mgr.View()), scheduler.mgr.View())
      ensures torn <==>
        (old(torn) || AbortTears(old(scheduler.View()), old(scheduler.Journaled()), x))
      ensures Aborted(old(scheduler.View()), scheduler.View(), x)
    {
      hide *;
      Going();
      scheduler.ShownData();
      scheduler.ShownPool();
      ghost var s, l := scheduler.View(), scheduler.Journaled();
      GrowSelf(s.data);
      AbortTearsIs(s, l, x);
      torn := torn || AbortTears(s, l, x);
      ghost var queued := x in scheduler.waiting || x in scheduler.running || x in scheduler.swapped;
      scheduler.AbortSeqGroup(x);
      scheduler.ShownData();
      scheduler.ShownPool();
      if queued {
        AbortKeeps(s, x, scheduler.mgr.View(), forwarded);
        forwarded := Surviving(scheduler.data, forwarded);
      } else {
        NotAborted(s, x);
      }
      Proven();
    }

    /** Whole runs: whatever happens in whatever order, the invariant is kept, no request's earlier tokens
        ever change, and the worker reads each request's tokens in order.  `trace` are the moments before
        the events handled.  The older scheduler never fails.  The newer one fails only in an iteration
        without room on the CPU, and never if all the tokens that the events may bring fit the CPU blocks.
        Its real cache never goes out of step but in an iteration that an event tears, and never if no
        request is paused by swapping it out.  No block is lost while no request exceeds the prompt limit. */
    method Run(events: seq<Event>) returns (ghost trace: seq<Moment>, ghost happened: seq<Happening>)
      requires Valid()
      modifies this, scheduler, scheduler.mgr, scheduler.mgr.gpu, scheduler.mgr.cpu
      ensures Valid() && (!stopped ==> |trace| == |events|)
      ensures !old(stopped) ==> Chronicle(trace, events, Moment(old(scheduler.View()), old(scheduler.Journaled())))
      ensures AllPlain(events) && !old(stopped) && stopped ==> scheduler.variant.V2? && StoppedIn(trace, events)
      ensures !old(stopped) && stopped ==>
        !(AllPlain(events) && Affordable(old(scheduler.data), events, old(scheduler.mgr.View())))
      ensures !stopped ==> AllGrow(old(scheduler.data), scheduler.data) && AllExact(scheduler.data, forwarded)
      ensures !stopped && scheduler.variant.V2? && corrupt && !old(corrupt) && !old(torn) ==> TornIn(trace, events)
      ensures !stopped && scheduler.variant.V2? && !old(torn) && Quiet(events, old(scheduler.blocksToSwapOut)) ==>
        corrupt == old(corrupt)
      ensures !stopped && (forall x :: x in scheduler.data ==> scheduler.data[x].Len() <= scheduler.promptLimit) ==>
        NoneLost(scheduler.View())
      ensures !old(stopped) && !stopped ==>
        Linked(scheduler.variant, scheduler.maxNumSeqs, events, happened, trace, scheduler.View())
      ensures !old(stopped) && stopped ==> trace != []
      ensures !old(stopped) && stopped ==>
        var n := |trace| - 1;
        Linked(scheduler.variant, scheduler.maxNumSeqs, events, happened, trace[..n], trace[n].s)
    {
      hide *;
      trace, happened := [], [];
      if stopped {
        return;
      }
      ghost var s0, first := scheduler.mgr.View(), Moment(scheduler.View(), scheduler.Journaled());
      ghost var quiet := scheduler.blocksToSwapOut == map[];
      QuietIs(events, scheduler.blocksToSwapOut);
      GrowSelf(scheduler.data);
      ArenasSame(s0);
      AffordableIs(scheduler.data, events, s0);
      ChronicleStart(events, first);
      LinkedStart(scheduler.variant, scheduler.maxNumSeqs, events, scheduler.View());
      var i := 0;
      while i < |events| && !stopped
        invariant i <= |events| && Valid() && |trace| == i && Chronicle(trace, events, first)
        invariant i == 0 ==> !stopped && Moment(scheduler.View(), scheduler.Journaled()) == first
        invariant !stopped && i > 0 ==> AllGrow(trace[i - 1].s.data, scheduler.data)
        invariant AllPlain(events) && stopped ==> scheduler.variant.V2? && StoppedIn(trace, events)
        invariant !stopped ==> AllGrow(old(scheduler.data), scheduler.data) && SameArenas(s0, scheduler.mgr.View())
        invariant Affordable(old(scheduler.data), events, s0) && AllPlain(events) ==>
          !stopped && Total(scheduler.data) + Demand(events, i, |scheduler.data|) <= |s0.cpu.refs|
        invariant !stopped && scheduler.variant.V2? && (torn || (corrupt && !old(corrupt))) && !old(torn) ==>
          TornIn(trace, events)
        invariant !stopped && AllCalm(events) && quiet ==> scheduler.blocksToSwapOut == map[]
        invariant !stopped && scheduler.variant.V2? && AllCalm(events) && !old(torn) && quiet ==>
          !torn && corrupt == old(corrupt)
        invariant !stopped ==>
          Linked(scheduler.variant, scheduler.maxNumSeqs, events, happened, trace, scheduler.View())
        invariant stopped ==> trace != []
        invariant stopped ==>
          Linked(scheduler.variant, scheduler.maxNumSeqs, events, happened, trace[..i - 1], trace[i - 1].s)
      {
        ghost var before, m := scheduler.data, Moment(scheduler.View(), scheduler.Journaled());
        Prospect(m, events, i, s0, Affordable(old(scheduler.data), events, s0));
        ChronicleNext(trace, m, events, first);
        ghost var h := Handle(events[i]);
        assert (trace + [m])[..i] == trace;
        if !stopped {
          LinkedNext(scheduler.variant, scheduler.maxNumSeqs, events, happened, trace, m, h, scheduler.View());
          happened := happened + [h];
        }
        trace := trace + [m];
        if !stopped {
          GrowTrans(old(scheduler.data), before, scheduler.data);
          ArenasTrans(s0, m.s.pool, scheduler.mgr.View());
          DemandNext(events, i, |before|, |scheduler.data|);
        }
        i := i + 1;
      }
      if !stopped {
        Going();
        Balance();
      }
    }

    /** What is known before an event of a run. */
    lemma Prospect(m: Moment, events: seq<Event>, i: nat, p: Pool, affordable: bool)
      requires Valid() && !stopped && m == Moment(scheduler.View(), scheduler.Journaled()) && i < |events|
      requires SameArenas(p, scheduler.mgr.View())
      requires affordable && AllPlain(events) ==>
        Total(scheduler.data) + Demand(events, i, |scheduler.data|) <= |p.cpu.refs|
      ensures Sound(m.s, m.l) && Between(m.s, [], []) && m.s.data == scheduler.data && m.s.pool == scheduler.mgr.View()
      ensures (AllPlain(events) ==> Plain(events[i])) && (AllCalm(events) ==> Calm(events[i]))
      ensures scheduler.blocksToSwapOut == map[] ==> !Tears(m.s, m.l, events[i])
      ensures affordable && AllPlain(events) ==> !MayStop(m, events[i])
    {
      hide *;
      Going();
      scheduler.Known();
      scheduler.ShownPending();
      scheduler.ShownData();
      scheduler.ShownPool();
      KindAt(events, i);
      if m.l.outs == map[] { NothingToTear(m.s, m.l, events[i]); }
      if affordable && AllPlain(events) { RoomForAll(m, events[i], p); }
    }

    /** No block is lost while no request exceeds the prompt limit. */
    lemma Balance()
      requires Valid() && !stopped
      ensures (forall x :: x in scheduler.data ==> scheduler.data[x].Len() <= scheduler.promptLimit) ==>
        NoneLost(scheduler.View())
    {
      hide *;
      Going();
      scheduler.Known();
      scheduler.ShownData();
      scheduler.ShownMemory();
      if forall x :: x in scheduler.data ==> scheduler.data[x].Len() <= scheduler.promptLimit {
        SoundInv(scheduler.View(), scheduler.Journaled());
        NoneLostWithin(scheduler.View());
      }
    }

    /** End-to-end cache refinement: once the pending copies have run, every block of every request's
        table holds in the real cache exactly that request's cached tokens at their positions. */
    lemma CacheRefines()
      requires Valid() && !stopped && !corrupt
      ensures scheduler.View().pool.tables.Keys <= scheduler.View().data.Keys
      ensures Refines(scheduler.View().b, scheduler.View().pool.tables, scheduler.View().data,
                      CopyIn(CopyOut(cache, scheduler.blocksToSwapOut), scheduler.blocksToSwapIn))
      ensures scheduler.blocksToSwapOut == map[] ==>
        Refines(scheduler.View().b, scheduler.View().pool.tables, scheduler.View().data, cache)
    {
      hide *;
      Going();
      scheduler.Known();
      scheduler.ShownPending();
      scheduler.ShownMemory();
      CopiesRefine(scheduler.View(), scheduler.Journaled(), cache);
    }
  }
}
