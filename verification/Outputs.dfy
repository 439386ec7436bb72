/** What a request's own events keep, on values: it arrives, its planned tokens are forwarded, it gets
    its next token, finishes, pauses for a call, resumes, or is aborted. */
module Outputs {
  import opened Basics
  import opened Blocks
  import opened Sequences
  import opened Layouts
  import opened BlockManager
  import opened System
  import opened Memory
  import opened Steps
  import opened Preemption
  import opened Rounds
  import opened Phases
  import opened Iterations
  import opened Sorting
  import opened Worker
  import opened CacheWrites

  predicate Runs(p: Place) {
    p.AtRunning? || p.AtBatch? || p.AtForwarded?
  }

  /** The requests that `free_finished_seq_groups` will leave in the running list. */
  function Live(l: seq<Id>, place: map<Id, Place>): seq<Id> {
    if l == [] then []
    else (if l[0] in place && Runs(place[l[0]]) then [l[0]] else []) + Live(l[1..], place)
  }

  lemma {:induction false} LiveMembers(l: seq<Id>, place: map<Id, Place>)
    requires NoDup(l)
    ensures NoDup(Live(l, place))
    ensures forall x :: x in Live(l, place) <==> x in l && x in place && Runs(place[x])
  {
    if l != [] {
      LiveMembers(l[1..], place);
      assert l == [l[0]] + l[1..];
      assert l[0] !in l[1..];
      var r := Live(l[1..], place);
      assert forall i :: 0 <= i < |r| ==> r[i] in r;
    }
  }

  lemma {:induction false} LiveSame(l: seq<Id>, place: map<Id, Place>, place': map<Id, Place>)
    requires forall x :: x in l ==> (x in place && Runs(place[x]) <==> x in place' && Runs(place'[x]))
    ensures Live(l, place') == Live(l, place)
  {
    if l != [] {
      LiveSame(l[1..], place, place');
    }
  }

  lemma {:induction false} LiveRemove(l: seq<Id>, place: map<Id, Place>, x: Id, p: Place)
    requires NoDup(l) && x in place && Runs(place[x]) && !Runs(p)
    ensures Live(l, place[x := p]) == Remove(Live(l, place), x)
  {
    if l != [] {
      assert l[0] !in l[1..];
      var rest := Live(l[1..], place);
      if l[0] == x {
        LiveSame(l[1..], place, place[x := p]);
        RemoveCons(x, rest, x);
      } else {
        LiveRemove(l[1..], place, x, p);
        RemoveCons(l[0], rest, x);
      }
    }
  }

  lemma RemoveCons(y: Id, r: seq<Id>, x: Id)
    ensures Remove([y] + r, x) == if y == x then r else [y] + Remove(r, x)
    ensures Remove([] + r, x) == Remove(r, x)
  {
    assert ([y] + r)[1..] == r;
    assert [] + r == r;
  }

  lemma {:induction false} LiveAll(l: seq<Id>, place: map<Id, Place>)
    requires forall x :: x in l ==> x in place && Runs(place[x])
    ensures Live(l, place) == l
  {
    if l != [] {
      LiveAll(l[1..], place);
    }
  }

  // ---- Forwarding

  /** The forward pass runs the pending copies and writes the batch's cells; the journal starts afresh. */
  function Settle(l: Log, mem: Mem): Log {
    Log(mem, mem, map[], map[], false)
  }

  lemma ForwardSound(s: Sys, l: Log, mem: Mem)
    requires Sound(s, l) && RowsReach(s, mem)
    ensures Sound(s, Settle(l, mem))
  {
    hide PoolOk, Exclusive, AllGood, Queues;
    forall id | id in s.pool.tables ensures RowHolds(s.pool.tables[id], id, s.b, s.data[id].Cached(), mem) {
      ReachCovers(s, l, id, mem);
    }
  }

  lemma ReachCovers(s: Sys, l: Log, id: Id, mem: Mem)
    requires Sound(s, l) && RowsReach(s, mem) && id in s.pool.tables
    ensures RowHolds(s.pool.tables[id], id, s.b, s.data[id].Cached(), mem)
  {
    var t := s.pool.tables[id];
    assert GoodAt(s, id);
    assert RowHolds(t, id, s.b, Reached(s, id), mem);
    assert s.data[id].Cached() <= Reached(s, id);
    forall k | 0 <= k < |t| ensures BlockHolds(mem(t[k]), id, k, s.b, s.data[id].Cached()) {
      assert BlockHolds(mem(t[k]), id, k, s.b, Reached(s, id));
    }
  }

  /** `post_forward` of one request of the batch. */
  function PostForward(s: Sys, x: Id): Sys
    requires x in s.data
  {
    var d := s.data[x].Forwarded();
    s.(data := s.data[x := d], place := s.place[x := if d.inflight == 0 then AtForwarded else AtRunning])
  }

  lemma PostForwardSound(s: Sys, l: Log, x: Id)
    requires Sound(s, l) && l.outs == map[] && l.ins == map[] && RowsReach(s, l.now)
    requires x in s.place && x in s.data && s.place[x].AtBatch?
    ensures Sound(PostForward(s, x), l)
    ensures RowsReach(PostForward(s, x), l.now)
  {
    hide PoolOk, Exclusive, Refines, AllGood, Queues, Sound, GoodAt, RowsReach, Journal;
    var s' := PostForward(s, x);
    SoundKeys(s, l);
    OthersSameFrom(s, s', x);
    PostForwardGood(s, l, x);
    PostForwardQueues(s, x);
    OneChanged(s, s', x);
    ReachSame(s, s', x, l.now);
    ReachRefines(s', l.now);
    NoJournal(s, s', l);
    TracedNone(s', l);
    SoundFrom(s', l, l.now);
  }

  lemma NoJournal(s: Sys, s': Sys, l: Log)
    requires Sound(s, l) && l.outs == map[] && l.ins == map[]
    ensures Journal(l, s'.pool.tables, s'.place)
  {
  }

  lemma PostForwardGood(s: Sys, l: Log, x: Id)
    requires Sound(s, l) && x in s.place && x in s.data && s.place[x].AtBatch?
    ensures GoodAt(PostForward(s, x), x)
    ensures Reached(PostForward(s, x), x) == Reached(s, x)
  {
    assert GoodAt(s, x);
  }

  lemma PostForwardQueues(s: Sys, x: Id)
    requires s.data.Keys == s.place.Keys && Queues(s) && x in s.place && x in s.data && s.place[x].AtBatch?
    ensures Queues(PostForward(s, x))
  {
    RunsElsewhere(s, PostForward(s, x), x);
  }

  /** A running request at another running place is still in the running list alone. */
  lemma RunsElsewhere(s: Sys, s': Sys, x: Id)
    requires s.data.Keys == s.place.Keys && Queues(s) && x in s.place && Runs(s.place[x])
    requires x in s'.data && x in s'.place && Runs(s'.place[x])
    requires s' == s.(data := s.data[x := s'.data[x]], place := s.place[x := s'.place[x]])
    ensures Queues(s')
  {
    hide Registers, Lists, ListsRunning, ListsPaused;
    var p := s'.place[x];
    RunningStays(s.running, s.place, x, p);
    PausedElsewhere(s.paused, s.place, x, p);
    ListsElsewhere(s.combined, s.place, AtCombined, x, p);
    if s.split {
      RunsRegisters(s, s', x);
    } else {
      ListsElsewhere(s.waiting, s.place, AtWaiting, x, p);
      ListsElsewhere(s.swapped, s.place, AtSwapped, x, p);
    }
  }

  lemma RunningStays(l: seq<Id>, place: map<Id, Place>, x: Id, p: Place)
    requires ListsRunning(l, place) && x in place && Runs(place[x]) && Runs(p)
    ensures ListsRunning(l, place[x := p])
  {
  }

  lemma RunsRegisters(s: Sys, s': Sys, x: Id)
    requires s.data.Keys == s.place.Keys && Registers(s) && x in s.place && Runs(s.place[x])
    requires x in s'.data && x in s'.place && Runs(s'.place[x])
    requires s' == s.(data := s.data[x := s'.data[x]], place := s.place[x := s'.place[x]])
    ensures Registers(s')
  {
    hide Registers;
    RegistersElsewhere(s, s', x, s'.place[x]);
  }

  lemma ReachSame(s: Sys, s': Sys, x: Id, mem: Mem)
    requires RowsReach(s, mem) && s'.pool == s.pool && s'.b == s.b && s'.limit == s.limit
    requires x in s.data && x in s'.data && Reached(s', x) == Reached(s, x) && OthersSame(s, s', x)
    ensures RowsReach(s', mem)
  {
    forall id | id in s'.pool.tables && id in s'.data
      ensures RowHolds(s'.pool.tables[id], id, s'.b, Reached(s', id), mem)
    {
      assert id != x ==> SameAt(s, s', id);
      assert RowHolds(s.pool.tables[id], id, s.b, Reached(s, id), mem);
    }
  }

  lemma ReachRefines(s: Sys, mem: Mem)
    requires Inv(s) && RowsReach(s, mem)
    ensures Refines(s.b, s.pool.tables, s.data, mem)
  {
    forall id | id in s.pool.tables ensures RowHolds(s.pool.tables[id], id, s.b, s.data[id].Cached(), mem) {
      assert GoodAt(s, id);
      assert RowHolds(s.pool.tables[id], id, s.b, Reached(s, id), mem);
      forall k | 0 <= k < |s.pool.tables[id]|
        ensures BlockHolds(mem(s.pool.tables[id][k]), id, k, s.b, s.data[id].Cached())
      {
        assert BlockHolds(mem(s.pool.tables[id][k]), id, k, s.b, Reached(s, id));
      }
    }
  }

  // ---- The next token

  /** A completely forwarded request gets its next token and runs on. */
  function NextToken(s: Sys, x: Id, t: Token): Sys
    requires x in s.data
  {
    s.(data := s.data[x := s.data[x].Appended(t)], place := s.place[x := AtRunning])
  }

  lemma NextTokenSound(s: Sys, l: Log, x: Id, t: Token)
    requires Sound(s, l) && x in s.place && x in s.data && s.place[x].AtForwarded?
    ensures Sound(NextToken(s, x, t), l)
  {
    hide PoolOk, Exclusive, Refines, AllGood, Queues, Sound, GoodAt, Journal;
    var s' := NextToken(s, x, t);
    SoundKeys(s, l);
    OthersSameFrom(s, s', x);
    NextTokenGood(s, l, x, t);
    RunsElsewhere(s, s', x);
    StepSame(s, l, s', x);
  }

  lemma NextTokenGood(s: Sys, l: Log, x: Id, t: Token)
    requires Sound(s, l) && x in s.place && x in s.data && s.place[x].AtForwarded?
    ensures GoodAt(NextToken(s, x, t), x)
    ensures NextToken(s, x, t).data[x].Cached() == s.data[x].Cached() && !InBatch(s.place, x)
  {
    hide Refines, Journal, Queues, PoolOk, Exclusive;
    assert GoodAt(s, x);
  }

  // ---- Leaving, pausing and resuming

  predicate Queued(p: Place) {
    p.AtRunning? || p.AtWaiting? || p.AtSwapped?
  }

  /** `x` has left the scheduler with status `status`, and all its blocks are free. */
  function Departed(s: Sys, x: Id, status: Status, pool: Pool): Sys
    requires x in s.data
  {
    s.(pool := pool, data := s.data[x := s.data[x].(status := status)], place := s.place[x := AtDone],
       running := Remove(s.running, x), waiting := Remove(s.waiting, x), swapped := Remove(s.swapped, x))
  }

  lemma LeftSound(s: Sys, l: Log, x: Id, status: Status, pool: Pool)
    requires Sound(s, l) && !s.split && x in s.place && x in s.data
    requires Queued(s.place[x]) && status.IsFinished() && !status.FinishedIgnored?
    requires PoolOk(pool) && pool.tables == s.pool.tables - {x}
    ensures Sound(Departed(s, x, status, pool), l)
  {
    hide PoolOk, Exclusive, Refines, AllGood, Queues, Sound, GoodAt, Journal, Remove;
    var s' := Departed(s, x, status, pool);
    SoundKeys(s, l);
    ExclusiveWithout(s.pool.tables, x);
    OthersSameFrom(s, s', x);
    LeftQueues(s, x, status, pool);
    LeftGood(s, x, status, pool);
    StepFree(s, l, s', x);
  }

  lemma LeftGood(s: Sys, x: Id, status: Status, pool: Pool)
    requires s.b > 0 && x in s.place && x in s.data && Queued(s.place[x])
    requires status.IsFinished() && !status.FinishedIgnored?
    requires pool.tables == s.pool.tables - {x}
    ensures GoodAt(Departed(s, x, status, pool), x)
    ensures !InBatch(s.place, x) && !InBatch(Departed(s, x, status, pool).place, x)
  {
  }

  lemma LeftQueues(s: Sys, x: Id, status: Status, pool: Pool)
    requires s.data.Keys == s.place.Keys && Queues(s) && !s.split && x in s.place && Queued(s.place[x])
    ensures Queues(Departed(s, x, status, pool))
  {
    hide Lists, ListsRunning, Remove;
    LeftRunning(s.running, s.place, x);
    LeftList(s.waiting, s.place, AtWaiting, x);
    LeftList(s.swapped, s.place, AtSwapped, x);
    ListsElsewhere(s.combined, s.place, AtCombined, x, AtDone);
  }

  lemma LeftRunning(l: seq<Id>, place: map<Id, Place>, x: Id)
    requires ListsRunning(l, place) && x in place
    ensures ListsRunning(Remove(l, x), place[x := AtDone])
  {
    RemoveKeepsOthers(l, x);
  }

  lemma LeftList(l: seq<Id>, place: map<Id, Place>, p: Place, x: Id)
    requires Lists(l, place, p) && x in place && !p.AtDone?
    ensures Lists(Remove(l, x), place[x := AtDone], p)
  {
    RemoveKeepsOthers(l, x);
  }

  /** A running request pauses and keeps its blocks. */
  function Preserved(s: Sys, x: Id): Sys
    requires x in s.data
  {
    s.(data := s.data[x := s.data[x].(status := PausedApi)], paused := s.paused[x := Preserve],
       place := s.place[x := AtPaused], running := Remove(s.running, x))
  }

  lemma PreservedSound(s: Sys, l: Log, x: Id)
    requires Sound(s, l) && x in s.place && x in s.data && s.place[x].AtRunning?
    ensures Sound(Preserved(s, x), l)
  {
    hide PoolOk, Exclusive, Refines, AllGood, Queues, Sound, GoodAt, Journal, Remove;
    var s' := Preserved(s, x);
    SoundKeys(s, l);
    OthersSameFrom(s, s', x);
    PausedQueues(s, s', x);
    PreservedGood(s, l, x);
    StepSame(s, l, s', x);
  }

  lemma PreservedGood(s: Sys, l: Log, x: Id)
    requires Sound(s, l) && x in s.place && x in s.data && s.place[x].AtRunning?
    ensures GoodAt(Preserved(s, x), x) && !InBatch(s.place, x)
    ensures Preserved(s, x).data[x].Cached() == s.data[x].Cached()
  {
    hide Queues, PoolOk, Exclusive, Refines, Journal, GpuPrefix, CeilDiv;
    assert GoodAt(s, x);
  }

  lemma PausedQueues(s: Sys, s': Sys, x: Id)
    requires s.data.Keys == s.place.Keys && Queues(s) && x in s.place && x in s.data && s.place[x].AtRunning?
    requires s'.place == s.place[x := AtPaused] && s'.running == Remove(s.running, x) && s'.split == s.split
    requires x in s'.paused && s'.paused == s.paused[x := s'.paused[x]]
    requires s'.waiting == s.waiting && s'.swapped == s.swapped && s'.combined == s.combined
    requires s'.data.Keys == s.data.Keys && forall y :: y in s.data && y != x ==> s'.data[y] == s.data[y]
    ensures Queues(s')
  {
    hide Registers, Lists, ListsRunning, Remove;
    ParkedRunning(s.running, s.place, x);
    ListsElsewhere(s.combined, s.place, AtCombined, x, AtPaused);
    if s.split {
      PausedRegisters(s, s', x);
    } else {
      ListsElsewhere(s.waiting, s.place, AtWaiting, x, AtPaused);
      ListsElsewhere(s.swapped, s.place, AtSwapped, x, AtPaused);
    }
  }

  lemma PausedRegisters(s: Sys, s': Sys, x: Id)
    requires s.data.Keys == s.place.Keys && Registers(s) && x in s.place && x in s.data && s.place[x].AtRunning?
    requires s'.place == s.place[x := AtPaused] && s'.waiting == s.waiting && s'.swapped == s.swapped
    requires s'.data.Keys == s.data.Keys && forall y :: y in s.data && y != x ==> s'.data[y] == s.data[y]
    ensures Registers(s')
  {
    hide Registers;
    RegistersElsewhere(s, s', x, AtPaused);
  }

  /** A running request pauses and gives its blocks up. */
  function Discarded(s: Sys, x: Id, pool: Pool): Sys
    requires x in s.data
  {
    s.(pool := pool, data := s.data[x := s.data[x].Restarted().(status := PausedApi)],
       paused := s.paused[x := Recompute], place := s.place[x := AtPaused], running := Remove(s.running, x))
  }

  lemma DiscardedSound(s: Sys, l: Log, x: Id, pool: Pool)
    requires Sound(s, l) && x in s.place && x in s.data && s.place[x].AtRunning?
    requires PoolOk(pool) && pool.tables == s.pool.tables - {x}
    ensures Sound(Discarded(s, x, pool), l)
  {
    hide PoolOk, Exclusive, Refines, AllGood, Queues, Sound, GoodAt, Journal, Remove;
    var s' := Discarded(s, x, pool);
    SoundKeys(s, l);
    ExclusiveWithout(s.pool.tables, x);
    OthersSameFrom(s, s', x);
    PausedQueues(s, s', x);
    DiscardedGood(s, l, x, pool);
    StepFree(s, l, s', x);
  }

  lemma DiscardedGood(s: Sys, l: Log, x: Id, pool: Pool)
    requires Sound(s, l) && x in s.place && x in s.data && s.place[x].AtRunning?
    requires pool.tables == s.pool.tables - {x}
    ensures GoodAt(Discarded(s, x, pool), x) && !InBatch(s.place, x) && !InBatch(Discarded(s, x, pool).place, x)
  {
    hide Sound;
    RunningKnown(s, l, x);
    RestartedGood(s.b, s.data[x]);
  }

  lemma RunningKnown(s: Sys, l: Log, x: Id)
    requires Sound(s, l) && x in s.place && x in s.data && s.place[x].AtRunning?
    ensures s.b > 0 && s.data[x].Len() >= 1
  {
    hide Refines, Journal, PoolOk, Exclusive, Queues;
    assert GoodAt(s, x);
  }

  /** The call returned `tokens`: the request goes on in the queue that its pause mode names. */
  function Resumed(s: Sys, x: Id, tokens: seq<Token>): Sys
    requires x in s.data && x in s.paused
  {
    var d := s.data[x].(output := s.data[x].output + tokens, inflight := s.data[x].inflight + |tokens|);
    var rest := s.(paused := s.paused - {x});
    match s.paused[x]
    case Preserve => rest.(data := s.data[x := d.(status := Status.Running)], place := s.place[x := AtRunning],
                           running := s.running + [x])
    case Swap => rest.(data := s.data[x := d.(status := Status.Swapped)], place := s.place[x := AtSwapped],
                       swapped := s.swapped + [x])
    case Recompute => rest.(data := s.data[x := d.(status := Status.Waiting)], place := s.place[x := AtWaiting],
                            waiting := [x] + s.waiting)
  }

  lemma ResumedSound(s: Sys, l: Log, x: Id, tokens: seq<Token>)
    requires Sound(s, l) && !s.split && x in s.data && x in s.paused
    ensures Sound(Resumed(s, x, tokens), l)
  {
    hide PoolOk, Exclusive, Refines, AllGood, Queues, Sound, GoodAt, Journal;
    var s' := Resumed(s, x, tokens);
    SoundKeys(s, l);
    ResumedGood(s, l, x, tokens);
    ResumedQueues(s, x, tokens);
    OthersSameFrom(s, s', x);
    StepSame(s, l, s', x);
  }

  lemma ResumedGood(s: Sys, l: Log, x: Id, tokens: seq<Token>)
    requires Sound(s, l) && x in s.data && x in s.paused
    ensures x in s.place && s.place[x].AtPaused? && GoodAt(Resumed(s, x, tokens), x)
    ensures !InBatch(s.place, x) && Resumed(s, x, tokens).data[x].Cached() == s.data[x].Cached()
  {
    hide Sound, GpuPrefix, Queues, AllGood;
    PausedGood(s, l, x);
  }

  lemma PausedGood(s: Sys, l: Log, x: Id)
    requires Sound(s, l) && x in s.data && x in s.paused
    ensures s.b > 0 && x in s.place && s.place[x].AtPaused? && GoodAt(s, x)
  {
  }

  lemma ResumedQueues(s: Sys, x: Id, tokens: seq<Token>)
    requires s.data.Keys == s.place.Keys && Queues(s) && !s.split && x in s.data && x in s.paused
    requires s.place[x].AtPaused?
    ensures Queues(Resumed(s, x, tokens))
  {
    hide Registers, Lists;
    var p := Resumed(s, x, tokens).place[x];
    ListsElsewhere(s.combined, s.place, AtCombined, x, p);
    if !p.AtSwapped? { ListsElsewhere(s.swapped, s.place, AtSwapped, x, p); }
    if !p.AtWaiting? { ListsElsewhere(s.waiting, s.place, AtWaiting, x, p); }
    match s.paused[x] {
      case Preserve =>
      case Swap => ListsAppend(s.swapped, s.place, AtSwapped, x);
      case Recompute =>
        ListsAppend(s.waiting, s.place, AtWaiting, x);
        ListsSwap(s.waiting, [x], s.place[x := AtWaiting], AtWaiting);
    }
  }

  /** A new request waits. */
  function Arrived(s: Sys, x: Id, prompt: seq<Token>): Sys {
    s.(data := s.data[x := SeqRec(prompt, [], Status.Waiting, 0, 0, 0, 0, |prompt|, 0, 0, 0)],
       place := s.place[x := AtWaiting], waiting := s.waiting + [x])
  }

  lemma ArrivedSound(s: Sys, l: Log, x: Id, prompt: seq<Token>)
    requires Sound(s, l) && !s.split && x !in s.data && prompt != []
    ensures Sound(Arrived(s, x, prompt), l)
  {
    hide PoolOk, Exclusive;
    var s' := Arrived(s, x, prompt);
    ArrivedQueues(s, x, prompt);
    ArrivedGood(s, x, prompt);
    forall id | id in s'.pool.tables ensures RowHolds(s'.pool.tables[id], id, s'.b, s'.data[id].Cached(), l.now) {
      assert RowHolds(s.pool.tables[id], id, s.b, s.data[id].Cached(), l.now);
    }
    JournalPlace(l, s.pool.tables, s.place, s'.place);
    TracedKept(s, l, s');
  }

  lemma ArrivedGood(s: Sys, x: Id, prompt: seq<Token>)
    requires Inv(s) && x !in s.data && prompt != []
    ensures AllGood(Arrived(s, x, prompt))
  {
    hide Queues, PoolOk, Exclusive;
    CeilDivBounds(0, s.b);
    forall id | id in Arrived(s, x, prompt).place ensures GoodAt(Arrived(s, x, prompt), id) {
      if id != x {
        assert GoodAt(s, id);
      }
    }
  }

  lemma ArrivedQueues(s: Sys, x: Id, prompt: seq<Token>)
    requires s.data.Keys == s.place.Keys && Queues(s) && !s.split && x !in s.data
    ensures Queues(Arrived(s, x, prompt))
  {
    assert x !in s.waiting;
  }

  // ---- Processing the outputs of one iteration

  /** What the sampled token means for its request: `_check_stop` and the pause policy decide. */
  datatype Verdict = Continue | Finish(capped: bool) | Pause(mode: Mode)

  datatype Sample = Sample(token: Token, verdict: Verdict)

  /** The requests of the batch that the sampler answers. */
  function HasOutput(data: map<Id, SeqRec>): Id -> bool {
    (x: Id) => x in data && (data[x].runningInflight > 0 || data[x].resumeDiscard > 0)
  }

  function WithOutput(data: map<Id, SeqRec>, ids: seq<Id>): seq<Id> {
    Select(ids, HasOutput(data))
  }

  function FinalStatus(capped: bool): (status: Status)
    ensures status.IsFinished() && !status.FinishedIgnored?
  {
    if capped then FinishedLengthCapped else FinishedStopped
  }

  predicate NoSwaps(outputs: seq<Sample>) {
    forall a :: a in outputs && a.verdict.Pause? ==> !a.verdict.mode.Swap?
  }

  lemma NoSwapsAt(outputs: seq<Sample>, i: nat)
    requires i < |outputs| && NoSwaps(outputs)
    ensures !(outputs[i].verdict.Pause? && outputs[i].verdict.mode.Swap?)
  {
  }

  /** A sampled token was appended to record `d`, and the verdict on it was carried out. */
  predicate Replied(d: SeqRec, d': SeqRec, p: Place, a: Sample) {
    d'.prompt == d.prompt && d'.output == d.output + [a.token] && match a.verdict
      case Continue => p.AtRunning?
      case Finish(capped) => p.AtDone? && d'.status == FinalStatus(capped)
      case Pause(_) => p.AtPaused?
  }

  /** What became of a request: `d` was its record when the batch was forwarded, `d'` and `p` are
      its record and place afterwards.  A token is sampled only for a completely forwarded sequence. */
  predicate Answered(d: SeqRec, d': SeqRec, p: Place, a: Sample) {
    if d.inflight == d.runningInflight then Replied(d, d', p, a) else d'.SameTokens(d) && p.AtRunning?
  }

  /** The state as it will be once finished and paused requests are dropped from the running list. */
  function LiveState(s: Sys): Sys {
    s.(running := Live(s.running, s.place))
  }

  lemma StartDraining(s: Sys, l: Log)
    requires Sound(s, l)
    ensures LiveState(s) == s && NoDup(s.running)
  {
    LiveAll(s.running, s.place);
  }

  /** A step that keeps the request running. */
  lemma LiveStays(s: Sys, s': Sys, x: Id)
    requires x in s.place && Runs(s.place[x]) && x in s'.place && Runs(s'.place[x])
    requires s'.place == s.place[x := s'.place[x]] && s'.running == s.running
    ensures LiveState(s') == s'.(running := LiveState(s).running)
  {
    LiveSame(s.running, s.place, s'.place);
  }

  /** A step that takes the request out of the running ones. */
  lemma LiveLeaves(s: Sys, s': Sys, x: Id)
    requires NoDup(s.running) && x in s.place && Runs(s.place[x]) && x in s'.place && !Runs(s'.place[x])
    requires s'.place == s.place[x := s'.place[x]] && s'.running == s.running
    ensures LiveState(s') == s'.(running := Remove(LiveState(s).running, x))
  {
    LiveRemove(s.running, s.place, x, s'.place[x]);
  }

  /** The requests in `done` have had their `post_forward`. */
  ghost predicate PartlyForwarded(s0: Sys, s: Sys, done: seq<Id>) {
    && s.data.Keys == s0.data.Keys && s.place.Keys == s0.place.Keys && s0.place.Keys == s0.data.Keys
    && s == s0.(data := s.data, place := s.place)
    && forall x {:trigger ForwardedIn(s0, s, x, done)} :: x in s0.data ==> ForwardedIn(s0, s, x, done)
  }

  ghost predicate ForwardedIn(s0: Sys, s: Sys, x: Id, done: seq<Id>)
    requires x in s0.data && x in s.data && x in s0.place && x in s.place
  {
    ForwardedAt(s0, s, x, x in done)
  }

  ghost predicate ForwardedAt(s0: Sys, s: Sys, x: Id, done: bool)
    requires x in s0.data && x in s.data && x in s0.place && x in s.place
  {
    if done then
      && s.data[x] == s0.data[x].Forwarded()
      && s.place[x] == if s.data[x].inflight == 0 then AtForwarded else AtRunning
    else s.data[x] == s0.data[x] && s.place[x] == s0.place[x]
  }

  lemma PartlyStart(s: Sys, l: Log)
    requires Sound(s, l)
    ensures PartlyForwarded(s, s, [])
  {
  }

  lemma PartlyNext(s0: Sys, s: Sys, ids: seq<Id>, i: nat)
    requires i < |ids| && NoDup(ids) && PartlyForwarded(s0, s, ids[..i]) && ids[i] in s.data
    ensures PartlyForwarded(s0, PostForward(s, ids[i]), ids[..i + 1])
  {
    var s', x := PostForward(s, ids[i]), ids[i];
    assert ids[..i + 1] == ids[..i] + [x];
    assert x !in ids[..i];
    forall y | y in s0.data ensures ForwardedIn(s0, s', y, ids[..i + 1]) {
      assert ForwardedIn(s0, s, y, ids[..i]);
    }
  }

  lemma PartlyPending(s0: Sys, s: Sys, ids: seq<Id>, i: nat)
    requires i < |ids| && NoDup(ids) && PartlyForwarded(s0, s, ids[..i]) && Lists(ids, s0.place, AtBatch)
    ensures ids[i] in s.data && ids[i] in s.place && s.place[ids[i]].AtBatch?
  {
    assert ids[i] !in ids[..i];
    assert ids[i] in ids;
    assert ForwardedIn(s0, s, ids[i], ids[..i]);
  }

  /** Where the loop over the answers stands: `left` are the answered requests still to come. */
  ghost predicate Responding(s0: Sys, s: Sys, answered: seq<Id>, outputs: seq<Sample>, k: nat) {
    && k <= |answered| == |outputs| && NoDup(answered)
    && s0.place.Keys == s0.data.Keys && s.data.Keys == s0.data.Keys && s.place.Keys == s0.place.Keys
    && SameArenas(s0.pool, s.pool)
    && (forall x {:trigger Pending(s0, s, x, answered[k..])} :: x in s0.data ==> Pending(s0, s, x, answered[k..]))
    && (forall j {:trigger Done(s0, s, answered[j], outputs[j])} :: 0 <= j < k ==> Done(s0, s, answered[j], outputs[j]))
  }

  /** No request is forgotten, and no request's earlier tokens change. */
  ghost predicate AllGrow(data: map<Id, SeqRec>, data': map<Id, SeqRec>) {
    forall x :: x in data ==> x in data' && data[x].GrowsInto(data'[x])
  }

  /** The tokens of `x` that the batch forwards. */
  ghost function ForwardedTokens(s0: Sys, x: Id): int
    requires x in s0.data && x in s0.place
  {
    if s0.place[x].AtBatch? then s0.data[x].runningInflight else 0
  }

  ghost predicate AllAdvanced(data: map<Id, SeqRec>, data': map<Id, SeqRec>, scheduled: seq<Id>) {
    forall x :: x in data ==>
      x in data' && Advanced(data[x], data'[x], if x in scheduled then data[x].runningInflight else 0)
  }

  ghost predicate Pending(s0: Sys, s: Sys, x: Id, left: seq<Id>)
    requires x in s0.data && x in s.data && x in s0.place && x in s.place
  {
    && (x in left ==> ForwardedAt(s0, s, x, true))
    && (s.place[x].AtForwarded? ==> x in left)
    && Advanced(s0.data[x], s.data[x], ForwardedTokens(s0, x))
    && (Settled(s.place[x]) || s.place[x].AtForwarded?) && !s.place[x].AtBatch?
  }

  ghost predicate Done(s0: Sys, s: Sys, x: Id, a: Sample) {
    x in s0.data && x in s.data && x in s.place && Answered(s0.data[x], s.data[x], s.place[x], a)
  }

  lemma RespondingStart(s0: Sys, l: Log, s: Sys, scheduled: seq<Id>, outputs: seq<Sample>)
    requires Sound(s0, l) && Between(s0, [], scheduled) && PartlyForwarded(s0, s, scheduled)
    requires |outputs| == |WithOutput(s0.data, scheduled)|
    ensures Responding(s0, s, WithOutput(s0.data, scheduled), outputs, 0)
  {
    hide PoolOk, Exclusive, Refines, Journal, Queues, Pending, GoodAt;
    var answered := WithOutput(s0.data, scheduled);
    SelectNoDup(scheduled, HasOutput(s0.data));
    SelectWithin(scheduled, HasOutput(s0.data));
    assert answered[0..] == answered;
    forall x | x in s0.data ensures Pending(s0, s, x, answered[0..]) {
      PendingStart(s0, l, s, scheduled, answered, x);
    }
  }

  lemma PendingStart(s0: Sys, l: Log, s: Sys, scheduled: seq<Id>, answered: seq<Id>, x: Id)
    requires Sound(s0, l) && Between(s0, [], scheduled) && PartlyForwarded(s0, s, scheduled) && x in s0.data
    requires answered == WithOutput(s0.data, scheduled) && forall y :: y in answered ==> y in scheduled
    ensures Pending(s0, s, x, answered)
  {
    hide PoolOk, Exclusive, Refines, Journal, Queues, PartlyForwarded, Select;
    ForwardedOne(s0, s, scheduled, x);
    assert GoodAt(s0, x);
    if x in scheduled && s.data[x].inflight == 0 {
      SelectMember(scheduled, HasOutput(s0.data), x);
    }
  }

  lemma ForwardedOne(s0: Sys, s: Sys, scheduled: seq<Id>, x: Id)
    requires PartlyForwarded(s0, s, scheduled) && x in s0.data
    ensures x in s.data && x in s0.place && x in s.place && ForwardedAt(s0, s, x, x in scheduled)
  {
    assert ForwardedIn(s0, s, x, scheduled);
  }

  lemma RespondingKnown(s0: Sys, s: Sys, answered: seq<Id>, outputs: seq<Sample>, k: nat)
    requires Responding(s0, s, answered, outputs, k) && k < |answered| && answered[k] in s0.data
    ensures var x := answered[k];
      && x in s0.place && x in s.data && x in s.place && ForwardedAt(s0, s, x, true)
      && (s.data[x].inflight == 0 <==> s.place[x].AtForwarded?)
  {
    assert answered[k] in answered[k..];
    assert Pending(s0, s, answered[k], answered[k..]);
  }

  lemma RespondedDone(s0: Sys, s: Sys, s': Sys, x: Id, a: Sample)
    requires x in s0.data && x in s.data && x in s0.place && x in s.place && ForwardedAt(s0, s, x, true)
    requires s.data[x].inflight == 0 && x in s'.data && x in s'.place && Replied(s.data[x], s'.data[x], s'.place[x], a)
    requires s'.data[x].Remains(s.data[x].Appended(a.token)) && s0.place[x].AtBatch?
    ensures Done(s0, s', x, a) && Settled(s'.place[x]) && !s'.place[x].AtBatch?
    ensures Advanced(s0.data[x], s'.data[x], ForwardedTokens(s0, x))
  {
  }

  lemma NotRespondedDone(s0: Sys, s: Sys, x: Id, a: Sample)
    requires x in s0.data && x in s.data && x in s0.place && x in s.place && ForwardedAt(s0, s, x, true)
    requires s.data[x].inflight != 0 && s0.place[x].AtBatch?
    ensures Done(s0, s, x, a) && Settled(s.place[x]) && !s.place[x].AtBatch?
    ensures Advanced(s0.data[x], s.data[x], ForwardedTokens(s0, x))
    ensures s.data == s.data[x := s.data[x]] && s.place == s.place[x := s.place[x]] && SameArenas(s.pool, s.pool)
  {
  }

  lemma RespondingNext(s0: Sys, s: Sys, s': Sys, answered: seq<Id>, outputs: seq<Sample>, k: nat)
    requires Responding(s0, s, answered, outputs, k) && k < |answered| && answered[k] in s0.data
    requires answered[k] in s'.data && s'.data == s.data[answered[k] := s'.data[answered[k]]]
    requires answered[k] in s'.place && s'.place == s.place[answered[k] := s'.place[answered[k]]]
    requires SameArenas(s.pool, s'.pool)
    requires Settled(s'.place[answered[k]]) && !s'.place[answered[k]].AtBatch? && Done(s0, s', answered[k], outputs[k])
    requires Advanced(s0.data[answered[k]], s'.data[answered[k]], ForwardedTokens(s0, answered[k]))
    ensures Responding(s0, s', answered, outputs, k + 1)
  {
    var x := answered[k];
    assert answered[k..] == [x] + answered[k + 1..];
    assert forall i :: k < i < |answered| ==> answered[i] != x;
    forall y | y in s0.data ensures Pending(s0, s', y, answered[k + 1..]) {
      assert Pending(s0, s, y, answered[k..]);
    }
    forall j | 0 <= j < k + 1 ensures Done(s0, s', answered[j], outputs[j]) {
      if j < k {
        assert Done(s0, s, answered[j], outputs[j]) && answered[j] != x;
      }
    }
  }

  lemma RespondingEnd(s0: Sys, s: Sys, answered: seq<Id>, outputs: seq<Sample>)
    requires Responding(s0, s, answered, outputs, |answered|) && !s.split
    ensures Between(s, [], []) && forall x :: x in s0.data ==> Advanced(s0.data[x], s.data[x], ForwardedTokens(s0, x))
    ensures forall i :: 0 <= i < |outputs| ==> Done(s0, s, answered[i], outputs[i])
  {
    forall x | x in s.place
      ensures Settled(s.place[x]) && !s.place[x].AtBatch? && Advanced(s0.data[x], s.data[x], ForwardedTokens(s0, x))
    {
      assert Pending(s0, s, x, answered[|answered|..]);
    }
  }

  lemma RespondingKeys(s0: Sys, s: Sys, answered: seq<Id>, outputs: seq<Sample>, k: nat)
    requires Responding(s0, s, answered, outputs, k)
    ensures s.data.Keys == s0.data.Keys
  {
  }

  lemma AdvancedAll(s0: Sys, s: Sys, l: Log, scheduled: seq<Id>)
    requires Sound(s0, l) && Between(s0, [], scheduled) && s.data.Keys == s0.data.Keys
    requires forall x :: x in s0.data ==> Advanced(s0.data[x], s.data[x], ForwardedTokens(s0, x))
    ensures AllAdvanced(s0.data, s.data, scheduled) && AllGrow(s0.data, s.data)
  {
  }

  lemma AnsweredBatch(s: Sys, l: Log, scheduled: seq<Id>)
    requires Sound(s, l) && Between(s, [], scheduled)
    ensures forall x :: x in WithOutput(s.data, scheduled) ==> x in s.data && x in s.place && s.place[x].AtBatch?
  {
    SelectWithin(scheduled, HasOutput(s.data));
  }

  lemma NotQueued(s: Sys, l: Log, x: Id)
    requires Sound(s, l) && !s.split && x in s.place && s.place[x].AtRunning?
    ensures Remove(s.waiting, x) == s.waiting && Remove(s.swapped, x) == s.swapped && !Away(s, x) && x !in s.paused
    ensures x in s.data && x in s.pool.tables
  {
    assert GoodAt(s, x);
  }

  lemma LiveOut(s: Sys, l: Log, s1: Sys, l1: Log, x: Id, m: map<nat, nat>)
    requires OutStep(s, l, s1, l1, x, m)
    ensures OutStep(LiveState(s), l, LiveState(s1), l1, x, m)
  {
  }

  /** A step on a running request leaves the pending copies anchored. */
  lemma AnchoredBeside(s: Sys, l: Log, s': Sys, x: Id)
    requires Anchored(s, l) && !Away(s, x)
    requires forall y :: y in s.paused ==> y in s'.paused && s'.paused[y] == s.paused[y]
    requires forall y :: y in s.swapped && y != x ==> y in s'.swapped
    requires forall y :: y in s.pool.tables && y != x ==> y in s'.pool.tables && s'.pool.tables[y] == s.pool.tables[y]
    ensures Anchored(s', l)
  {
    AnchoredAfter(s, l, s', x);
  }

  lemma AnchoredArrived(s: Sys, l: Log, x: Id, prompt: seq<Token>)
    requires Anchored(s, l)
    ensures Anchored(Arrived(s, x, prompt), l)
  {
    AnchoredSorted(s, l, Arrived(s, x, prompt));
  }

  lemma AnchoredResumed(s: Sys, l: Log, x: Id, tokens: seq<Token>)
    requires Anchored(s, l) && x in s.data && x in s.paused
    ensures Anchored(Resumed(s, x, tokens), l)
  {
    var s' := Resumed(s, x, tokens);
    forall c | c in l.outs.Values ensures exists y :: HeldBySwap(s', y, c) {
      var y :| HeldBySwap(s, y, c);
      assert HeldBySwap(s', y, c);
    }
  }

  lemma AnchoredDeparted(s: Sys, l: Log, x: Id, status: Status, pool: Pool)
    requires Sound(s, l) && !s.split && Anchored(s, l) && x in s.data && pool.tables == s.pool.tables - {x}
    requires x in s.waiting || x in s.running || x in s.swapped
    requires !(x in s.swapped && Awaiting(s, l, x))
    ensures Anchored(Departed(s, x, status, pool), l)
  {
    hide PoolOk, Exclusive, Refines, Journal, Remove;
    RemoveKeepsOthers(s.swapped, x);
    assert x in s.paused ==> x !in s.waiting && x !in s.running && x !in s.swapped;
    AnchoredAfter(s, l, Departed(s, x, status, pool), x);
  }

  /** The steps of one answer, on the state without the finished and paused requests. */
  lemma LiveNextToken(s: Sys, l: Log, s': Sys, x: Id, t: Token)
    requires Sound(LiveState(s), l) && x in s.place && x in s.data && s.place[x].AtForwarded?
    requires s' == NextToken(s, x, t)
    ensures Sound(LiveState(s'), l) && (Anchored(LiveState(s), l) ==> Anchored(LiveState(s'), l))
  {
    hide Sound, Live, Anchored;
    LiveStays(s, s', x);
    NextTokenSound(LiveState(s), l, x, t);
    if Anchored(LiveState(s), l) {
      AnchoredSorted(LiveState(s), l, LiveState(s'));
    }
  }

  lemma LiveFinished(s: Sys, l: Log, s': Sys, x: Id, status: Status)
    requires Sound(LiveState(s), l) && NoDup(s.running) && !s.split
    requires x in s.place && x in s.data && s.place[x].AtRunning?
    requires status.IsFinished() && !status.FinishedIgnored? && PoolOk(s'.pool) && s'.pool.tables == s.pool.tables - {x}
    requires s' == s.(pool := s'.pool, data := s.data[x := s.data[x].(status := status)], place := s.place[x := AtDone])
    ensures Sound(LiveState(s'), l) && (Anchored(LiveState(s), l) ==> Anchored(LiveState(s'), l))
  {
    hide Sound, Live, Anchored, PoolOk;
    LiveLeaves(s, s', x);
    NotQueued(LiveState(s), l, x);
    LeftSound(LiveState(s), l, x, status, s'.pool);
    if Anchored(LiveState(s), l) {
      AnchoredBeside(LiveState(s), l, LiveState(s'), x);
    }
  }

  lemma LivePreserved(s: Sys, l: Log, s': Sys, x: Id)
    requires Sound(LiveState(s), l) && NoDup(s.running) && !s.split
    requires x in s.place && x in s.data && s.place[x].AtRunning?
    requires s' == s.(data := s.data[x := s.data[x].(status := PausedApi)], paused := s.paused[x := Preserve],
                      place := s.place[x := AtPaused])
    ensures Sound(LiveState(s'), l) && (Anchored(LiveState(s), l) ==> Anchored(LiveState(s'), l))
  {
    hide Sound, Live, Anchored;
    LiveLeaves(s, s', x);
    NotQueued(LiveState(s), l, x);
    PreservedSound(LiveState(s), l, x);
    if Anchored(LiveState(s), l) {
      AnchoredBeside(LiveState(s), l, LiveState(s'), x);
    }
  }

  lemma LiveDiscarded(s: Sys, l: Log, s': Sys, x: Id)
    requires Sound(LiveState(s), l) && NoDup(s.running) && !s.split
    requires x in s.place && x in s.data && s.place[x].AtRunning?
    requires PoolOk(s'.pool) && s'.pool.tables == s.pool.tables - {x}
    requires s' == s.(pool := s'.pool, data := s.data[x := s.data[x].Restarted().(status := PausedApi)],
                      paused := s.paused[x := Recompute], place := s.place[x := AtPaused])
    ensures Sound(LiveState(s'), l) && (Anchored(LiveState(s), l) ==> Anchored(LiveState(s'), l))
  {
    hide Sound, Live, Anchored, PoolOk;
    LiveLeaves(s, s', x);
    NotQueued(LiveState(s), l, x);
    DiscardedSound(LiveState(s), l, x, s'.pool);
    if Anchored(LiveState(s), l) {
      AnchoredBeside(LiveState(s), l, LiveState(s'), x);
    }
  }

  lemma LiveParked(s: Sys, l: Log, s1: Sys, l1: Log, s': Sys, x: Id, m: map<nat, nat>)
    requires Sound(LiveState(s), l) && NoDup(s.running) && !s.split
    requires x in s.place && x in s.data && s.place[x].AtRunning?
    requires OutStep(s, l, s1, l1, x, m) && x in s1.data && x in s1.pool.tables
    requires s' == s1.(data := s1.data[x := SwappedRec(s1.data[x], |s1.pool.tables[x]|).(status := PausedApi)],
                       paused := s1.paused[x := Swap], place := s1.place[x := AtPaused])
    ensures Sound(LiveState(s'), l1)
    ensures Anchored(LiveState(s), l) ==> Anchored(LiveState(s'), l1) && l1.clash == l.clash
  {
    hide Sound, Live, Anchored, OutStep;
    OutStepFields(s, l, s1, l1, x, m);
    LiveOut(s, l, s1, l1, x, m);
    LiveLeaves(s1, s', x);
    NotQueued(LiveState(s), l, x);
    OutParked(LiveState(s), l, LiveState(s1), l1, x, m);
    if Anchored(LiveState(s), l) {
      AnchoredOut(LiveState(s), l, LiveState(s1), l1, x, m);
    }
  }

  lemma NextTokenFields(s: Sys, x: Id, t: Token)
    requires x in s.data
    ensures NextToken(s, x, t).data == s.data[x := s.data[x].Appended(t)]
    ensures NextToken(s, x, t).place == s.place[x := AtRunning] && NextToken(s, x, t).pool == s.pool
    ensures s.data[x].Appended(t).prompt == s.data[x].prompt && s.data[x].Appended(t).output == s.data[x].output + [t]
    ensures SameArenas(s.pool, s.pool)
  {
  }

  lemma BetweenLive(s: Sys)
    requires Between(s, [], [])
    ensures Between(LiveState(s), [], []) && LiveState(s).data == s.data && LiveState(s).place == s.place
    ensures LiveState(s).pool == s.pool
  {
  }

  lemma RespondingArenas(s0: Sys, s: Sys, answered: seq<Id>, outputs: seq<Sample>, k: nat)
    requires Responding(s0, s, answered, outputs, k)
    ensures SameArenas(s0.pool, s.pool) && s.place.Keys == s0.place.Keys
  {
  }

  lemma DoneParts(s0: Sys, s: Sys, x: Id, a: Sample)
    requires Done(s0, s, x, a)
    ensures x in s0.data && x in s.data && x in s.place && Answered(s0.data[x], s.data[x], s.place[x], a)
  {
  }

  lemma PausedText(d: SeqRec)
    ensures d.(status := PausedApi).Remains(d) && d.Restarted().(status := PausedApi).Remains(d)
  {
  }

  lemma RepliedContinue(d: SeqRec, a: Sample)
    requires a.verdict.Continue?
    ensures Replied(d, d.Appended(a.token), AtRunning, a) && d.Appended(a.token).Remains(d.Appended(a.token))
  {
  }

  lemma RepliedFinish(d: SeqRec, a: Sample)
    requires a.verdict.Finish?
    ensures var d' := d.Appended(a.token).(status := FinalStatus(a.verdict.capped));
      Replied(d, d', AtDone, a) && d'.Remains(d.Appended(a.token))
  {
  }

  lemma RepliedPause(d: SeqRec, d': SeqRec, a: Sample)
    requires a.verdict.Pause? && d'.Remains(d.Appended(a.token))
    ensures Replied(d, d', AtPaused, a)
  {
  }

  lemma LiveTable(s: Sys, l: Log, x: Id)
    requires Sound(LiveState(s), l) && !s.split && x in s.place && s.place[x].AtRunning?
    ensures x in s.pool.tables && Exclusive(s.pool.tables)
  {
    hide Live;
    NotQueued(LiveState(s), l, x);
  }

  lemma OutStepArenas(s: Sys, l: Log, s1: Sys, l1: Log, x: Id, m: map<nat, nat>)
    requires OutStep(s, l, s1, l1, x, m)
    ensures SameArenas(s.pool, s1.pool)
  {
  }

  // ---- Between iterations

  /** Python's `s[:n]`. */
  function PySlice(s: seq<Token>, n: int): seq<Token> {
    if n >= |s| then s else if n >= 0 then s[..n] else if |s| + n >= 0 then s[..|s| + n] else []
  }

  /** How many of `n` returned tokens the two length limits allow. */
  function Allowed(d: SeqRec, n: nat, maxModelLen: int, maxTokens: int): int {
    Min(Min(n, maxModelLen - d.Len()), maxTokens - |d.output|)
  }

  /** A return that fits the two limits is appended as it is; otherwise the longest prefix that fits, as long as the
      request was within its limits. */
  lemma ResumedWithin(d: SeqRec, ret: seq<Token>, maxModelLen: int, maxTokens: int)
    requires d.Len() <= maxModelLen && |d.output| <= maxTokens
    ensures var t := PySlice(ret, Allowed(d, |ret|, maxModelLen, maxTokens));
      && t <= ret && d.Len() + |t| <= maxModelLen && |d.output| + |t| <= maxTokens
      && (t == ret || d.Len() + |t| == maxModelLen || |d.output| + |t| == maxTokens)
  {
  }

  /** A request that exceeds a limit by `k` tokens gets all of the return but its last `k` tokens. */
  lemma ResumedBeyond(d: SeqRec, ret: seq<Token>, maxModelLen: int, maxTokens: int)
    requires d.Len() > maxModelLen || |d.output| > maxTokens
    ensures var t, a, b := PySlice(ret, Allowed(d, |ret|, maxModelLen, maxTokens)), d.Len() - maxModelLen,
        |d.output| - maxTokens;
      var k := if a > b then a else b;
      t <= ret && |t| == if k < |ret| then |ret| - k else 0
  {
  }

  lemma PlacesBetween(s: Sys, s': Sys, x: Id)
    requires Between(s, [], []) && s'.split == s.split
    requires x in s'.place && s'.place == s.place[x := s'.place[x]] && Settled(s'.place[x]) && !s'.place[x].AtBatch?
    ensures Between(s', [], [])
  {
  }

  lemma ArrivedBetween(s: Sys, l: Log, x: Id, prompt: seq<Token>)
    requires Sound(s, l) && Between(s, [], []) && x !in s.data && prompt != []
    ensures Between(Arrived(s, x, prompt), [], [])
  {
    PlacesBetween(s, Arrived(s, x, prompt), x);
  }

  lemma PausedInData(s: Sys, l: Log, x: Id)
    requires Sound(s, l) && x in s.paused
    ensures x in s.data
  {
  }

  lemma ResumedBetween(s: Sys, l: Log, x: Id, tokens: seq<Token>)
    requires Sound(s, l) && Between(s, [], []) && x in s.data && x in s.paused
    ensures Between(Resumed(s, x, tokens), [], [])
  {
    PlacesBetween(s, Resumed(s, x, tokens), x);
  }

  lemma AbortEnds()
    ensures FinishedAborted.IsFinished()
  {
  }

  lemma QueuedKnown(s: Sys, l: Log, x: Id)
    requires Sound(s, l) && Between(s, [], []) && (x in s.waiting || x in s.running || x in s.swapped)
    ensures x in s.data && x in s.place && Queued(s.place[x])
  {
  }

  lemma DepartedBetween(s: Sys, l: Log, x: Id, status: Status, pool: Pool)
    requires Sound(s, l) && Between(s, [], []) && x in s.data && x in s.place
    ensures Between(Departed(s, x, status, pool), [], [])
  {
    PlacesBetween(s, Departed(s, x, status, pool), x);
  }
}
