/** What taking blocks back from requests keeps, on values. */
module Preemption {
  import opened Basics
  import opened Blocks
  import opened Sequences
  import opened Layouts
  import opened BlockManager
  import opened System
  import opened Memory
  import opened Steps

  /** A swapped-queue entry that the combined phase is done with: already scheduled, or ignored. */
  predicate Stale(place: map<Id, Place>, x: Id) {
    !(x in place && Unsettled(place[x]))
  }

  /** A swapped request lost its CPU blocks, and nothing else happened. */
  ghost predicate Spared(s: Sys, s': Sys, id: Id) {
    && Kept(s, s', AtPaused) && OthersSame(s, s', id)
    && id in s.data && id !in s'.pool.tables
    && (id in s.paused ==> s.paused[id].Swap?)
    && (id !in s.paused ==> id !in s'.paused)
    && SameArenas(s.pool, s'.pool) && |s'.pool.gpu.free| == |s.pool.gpu.free|
    && |s'.pool.cpu.free| == |s.pool.cpu.free| + |TableOf(s.pool.tables, id)|
    && NoMore(s, s')
  }

  /** What the source does with a swapped request when the CPU runs short.  In the combined phase the
      request stays where it is in the target list. */
  function RestartedSwapped(s: Sys, id: Id, pool: Pool): Sys
    requires id in s.data
  {
    s.(pool := pool, data := s.data[id := s.data[id].Restarted().(status := Status.Waiting)],
       swapped := Remove(s.swapped, id), waiting := s.waiting + [id],
       place := if s.split then s.place else s.place[id := AtWaiting])
  }

  function RestartedPaused(s: Sys, id: Id, pool: Pool): Sys
    requires id in s.data
  {
    s.(pool := pool, data := s.data[id := s.data[id].Restarted()], paused := s.paused[id := Recompute])
  }

  lemma RestartedSwappedFields(s: Sys, id: Id, pool: Pool)
    requires id in s.data
    ensures var s' := RestartedSwapped(s, id, pool);
      && s'.b == s.b && s'.limit == s.limit && s'.pool == pool && s'.split == s.split && s'.paused == s.paused
      && s'.data == s.data[id := s.data[id].Restarted().(status := Status.Waiting)]
      && s'.place == (if s.split then s.place else s.place[id := AtWaiting])
      && s'.running == s.running && s'.combined == s.combined
      && s'.swapped == Remove(s.swapped, id) && s'.waiting == s.waiting + [id]
  {
  }

  lemma RestartedPausedFields(s: Sys, id: Id, pool: Pool)
    requires id in s.data
    ensures var s' := RestartedPaused(s, id, pool);
      && s'.b == s.b && s'.limit == s.limit && s'.pool == pool && s'.split == s.split
      && s'.paused == s.paused[id := Recompute] && s'.data == s.data[id := s.data[id].Restarted()]
      && s'.place == s.place && s'.swapped == s.swapped && s'.waiting == s.waiting
  {
  }

  lemma SwappedDiscarded(s: Sys, l: Log, s': Sys, id: Id)
    requires Sound(s, l) && id in s.swapped && PoolOk(s'.pool) && SameArenas(s.pool, s'.pool)
    requires !(s.split && Stale(s.place, id))
    requires id in s.data && s' == RestartedSwapped(s, id, s'.pool)
    requires s'.pool.tables == s.pool.tables - {id}
    ensures Sound(s', l) && Spared(s, s', id)
  {
    hide *;
    RestartedSwappedFields(s, id, s'.pool);
    SoundKeys(s, l);
    SwappedTarget(s, l, id);
    DiscardedQueues(s, s', id);
    ExclusiveWithout(s.pool.tables, id);
    OthersSameFrom(s, s', id);
    RestartedGoodAt(s, s', id);
    StepFree(s, l, s', id);
    OffloadedFreed(s, s', id);
    SwappedKept(s, s', id);
    RemoveShortens(s.swapped, id);
    NoMoreFrom(s, s');
    SparedFrom(s, s', id);
  }

  lemma SwappedKept(s: Sys, s': Sys, id: Id)
    requires OthersSame(s, s', id) && s'.split == s.split
    requires if s.split then Unsettled(s.place[id]) else s.place[id].AtSwapped?
    requires s'.place == if s.split then s.place else s.place[id := AtWaiting]
    requires s'.data[id] == s.data[id].Restarted().(status := Status.Waiting) && id !in s'.pool.tables
    ensures Kept(s, s', AtPaused)
  {
    KeptFrom(s, s', id, AtPaused);
  }

  lemma SparedFrom(s: Sys, s': Sys, id: Id)
    requires Kept(s, s', AtPaused) && OthersSame(s, s', id) && id in s.data && id !in s'.pool.tables
    requires id in s.paused ==> s.paused[id].Swap?
    requires id !in s.paused ==> id !in s'.paused
    requires SameArenas(s.pool, s'.pool) && |s'.pool.gpu.free| == |s.pool.gpu.free| && NoMore(s, s')
    requires |s'.pool.cpu.free| == |s.pool.cpu.free| + |TableOf(s.pool.tables, id)|
    ensures Spared(s, s', id)
  {
  }

  /** Freeing a table of CPU blocks frees no GPU block. */
  lemma OffloadedFreed(s: Sys, s': Sys, id: Id)
    requires PoolOk(s.pool) && PoolOk(s'.pool) && Exclusive(s.pool.tables) && SameArenas(s.pool, s'.pool)
    requires id in s.pool.tables && s'.pool.tables == s.pool.tables - {id}
    requires GpuPrefix(s.pool.tables[id], 0)
    ensures |s'.pool.gpu.free| == |s.pool.gpu.free| && id !in s'.pool.tables
    ensures |s'.pool.cpu.free| == |s.pool.cpu.free| + |TableOf(s.pool.tables, id)|
  {
    FreedCounts(s.pool, s'.pool, id);
    assert TableOk(s.pool, s.pool.tables[id]);
    CountPrefix(s.pool.tables[id], 0);
  }

  lemma PausedKnown(s: Sys, l: Log, id: Id)
    requires Sound(s, l) && id in s.paused && s.paused[id].Swap?
    ensures id in s.data && id in s.place && s.place[id].AtPaused? && s.data[id].status.PausedApi?
    ensures id in s.pool.tables && GpuPrefix(s.pool.tables[id], 0) && s.data[id].Len() >= 1
  {
    assert GoodAt(s, id);
  }

  lemma PausedDiscarded(s: Sys, l: Log, s': Sys, id: Id)
    requires Sound(s, l) && id in s.paused && s.paused[id].Swap? && PoolOk(s'.pool) && SameArenas(s.pool, s'.pool)
    requires id in s.data && s' == RestartedPaused(s, id, s'.pool)
    requires s'.pool.tables == s.pool.tables - {id}
    ensures Sound(s', l) && Spared(s, s', id)
  {
    hide *;
    RestartedPausedFields(s, id, s'.pool);
    SoundKeys(s, l);
    PausedKnown(s, l, id);
    ExclusiveWithout(s.pool.tables, id);
    OthersSameFrom(s, s', id);
    PausedRestarted(s, s', id);
    StepFree(s, l, s', id);
    OffloadedFreed(s, s', id);
    NoMoreFrom(s, s');
    SparedFrom(s, s', id);
  }

  lemma NoMoreFrom(s: Sys, s': Sys)
    requires |s'.swapped| <= |s.swapped| && |s'.swapped| + |s'.waiting| <= |s.swapped| + |s.waiting|
    ensures NoMore(s, s')
  {
  }

  lemma PausedRestarted(s: Sys, s': Sys, id: Id)
    requires s.b > 0 && s.data.Keys == s.place.Keys && Queues(s) && OthersSame(s, s', id)
    requires id in s.place && s.place[id].AtPaused? && s.data[id].status.PausedApi? && s.data[id].Len() >= 1
    requires id in s.paused && id in s.data && s' == RestartedPaused(s, id, s'.pool)
    requires s'.pool.tables == s.pool.tables - {id}
    ensures Queues(s') && GoodAt(s', id) && Kept(s, s', AtPaused)
    ensures !InBatch(s.place, id) && !InBatch(s'.place, id)
  {
    hide Queues, OthersSame, Kept;
    RestartedGood(s.b, s.data[id]);
    RestartedPausedQueues(s, s', id);
    KeptFrom(s, s', id, AtPaused);
  }

  lemma RestartedPausedQueues(s: Sys, s': Sys, id: Id)
    requires s.data.Keys == s.place.Keys && Queues(s) && id in s.place && s.place[id].AtPaused?
    requires id in s.paused && id in s.data && s' == RestartedPaused(s, id, s'.pool)
    ensures Queues(s')
  {
  }

  /** Requests that hold only CPU blocks, in the order in which they may be restarted. */
  ghost predicate Discards(s: Sys, l: seq<Id>) {
    NoDup(l) && forall x :: x in l ==> (x in s.paused && s.paused[x].Swap?) || x in s.swapped
  }

  lemma DiscardsOnce(s: Sys, l: seq<Id>)
    requires Discards(s, l)
    ensures NoDup(l)
  {
  }

  lemma DiscardsLast(s: Sys, log: Log, l: seq<Id>)
    requires Sound(s, log) && Discards(s, l) && l != []
    ensures l[|l| - 1] in s.paused ==> s.paused[l[|l| - 1]].Swap?
    ensures l[|l| - 1] !in s.paused ==> l[|l| - 1] in s.swapped
    ensures NoDup(s.swapped)
  {
    assert l[|l| - 1] in l;
  }

  lemma DiscardsRest(s: Sys, s': Sys, l: seq<Id>, x: Id)
    requires Discards(s, l) && l != [] && l[|l| - 1] == x
    requires s'.paused == s.paused || (x in s.paused && s'.paused == s.paused[x := Recompute])
    requires s'.swapped == s.swapped || s'.swapped == Remove(s.swapped, x)
    requires NoDup(s.swapped)
    ensures Discards(s', l[..|l| - 1])
  {
    RemoveKeepsOthers(s.swapped, x);
    var r := l[..|l| - 1];
    assert l == r + [x];
    assert x !in r;
  }

  /** Swapped requests may have lost their CPU blocks; preserved requests and the free GPU blocks are as before. */
  ghost predicate RoomMade(s: Sys, s': Sys) {
    && Kept(s, s', AtPaused)
    && SameArenas(s.pool, s'.pool) && |s'.pool.gpu.free| == |s.pool.gpu.free|
    && PreservedKept(s, s') && NoMore(s, s')
  }

  /** Swapped requests may have become waiting ones; the two queues together are no longer than before. */
  ghost predicate NoMore(s: Sys, s': Sys) {
    |s'.swapped| <= |s.swapped| && |s'.swapped| + |s'.waiting| <= |s.swapped| + |s.waiting|
  }

  ghost predicate PreservedKept(s: Sys, s': Sys) {
    forall v {:trigger PreservedAt(s, s', v)} :: v in s.paused && s.paused[v].Preserve? ==> PreservedAt(s, s', v)
  }

  ghost predicate PreservedAt(s: Sys, s': Sys, v: Id) {
    && v in s'.paused && s'.paused[v].Preserve?
    && v in s.place && v in s'.place && s'.place[v] == s.place[v]
    && v in s.data && v in s'.data && s'.data[v] == s.data[v]
    && Lookup(s'.pool.tables, v) == Lookup(s.pool.tables, v)
  }

  lemma RoomMadeSelf(s: Sys, l: Log)
    requires Sound(s, l)
    ensures RoomMade(s, s)
  {
    forall v | v in s.paused && s.paused[v].Preserve? ensures PreservedAt(s, s, v) {
      assert v in s.place;
    }
  }

  lemma RoomMadeStep(s0: Sys, s: Sys, s': Sys, x: Id)
    requires RoomMade(s0, s) && Spared(s, s', x)
    ensures RoomMade(s0, s')
  {
    KeptTrans(s0, s, s', AtPaused);
    forall v | v in s0.paused && s0.paused[v].Preserve? ensures PreservedAt(s0, s', v) {
      assert PreservedAt(s0, s, v);
      assert v != x && SameAt(s, s', v);
    }
  }

  lemma RestartedGoodAt(s: Sys, s': Sys, id: Id)
    requires s.b > 0 && id in s.data && s.data[id].Len() >= 1 && s'.b == s.b && s'.limit == s.limit
    requires id in s'.data && s'.data[id] == s.data[id].Restarted().(status := Status.Waiting)
    requires s'.pool.tables == s.pool.tables - {id} && s'.paused == s.paused
    requires id in s'.place && (s'.place[id].AtWaiting? || Unsettled(s'.place[id]))
    ensures GoodAt(s', id) && !InBatch(s'.place, id) && s'.data[id].Remains(s.data[id])
  {
    RestartedGood(s.b, s.data[id]);
  }

  lemma SoundKeys(s: Sys, l: Log)
    requires Sound(s, l)
    ensures s.b > 0 && s.data.Keys == s.place.Keys && s.pool.tables.Keys <= s.place.Keys
    ensures PoolOk(s.pool) && Exclusive(s.pool.tables) && AllGood(s) && Queues(s)
  {
  }

  lemma SwappedTarget(s: Sys, l: Log, id: Id)
    requires Sound(s, l) && id in s.swapped && !(s.split && Stale(s.place, id))
    ensures id in s.place && id in s.data && !InBatch(s.place, id) && s.data[id].Len() >= 1
    ensures if s.split then Unsettled(s.place[id]) else s.place[id].AtSwapped?
    ensures id !in s.paused && id in s.pool.tables && GpuPrefix(s.pool.tables[id], 0)
  {
    assert GoodAt(s, id);
  }

  lemma ExclusiveWithout(tables: map<Id, Table>, id: Id)
    requires Exclusive(tables)
    ensures Exclusive(tables - {id})
  {
  }

  lemma RestartedGood(b: nat, d: SeqRec)
    requires b > 0 && d.Len() >= 1
    ensures Layout(b, d.Restarted(), []) && d.Restarted().Idle() && Bare(d.Restarted(), None)
  {
    CeilDivBounds(0, b);
  }

  lemma DiscardedQueues(s: Sys, s': Sys, id: Id)
    requires s.data.Keys == s.place.Keys && Queues(s) && id in s.swapped && !(s.split && Stale(s.place, id))
    requires id in s.data && s' == RestartedSwapped(s, id, s'.pool)
    ensures Queues(s')
  {
    hide Registers, Lists, ListsRunning, ListsPaused, RestartedSwapped, Remove;
    RestartedSwappedFields(s, id, s'.pool);
    if s.split {
      DiscardedRegisters(s, s', id);
    } else {
      SwappedElsewhere(s, id);
    }
  }

  lemma SwappedElsewhere(s: Sys, id: Id)
    requires s.data.Keys == s.place.Keys && Queues(s) && !s.split && id in s.swapped
    ensures ListsRunning(s.running, s.place[id := AtWaiting]) && ListsPaused(s.paused, s.place[id := AtWaiting])
    ensures Lists(s.combined, s.place[id := AtWaiting], AtCombined)
    ensures Lists(s.waiting + [id], s.place[id := AtWaiting], AtWaiting)
    ensures Lists(Remove(s.swapped, id), s.place[id := AtWaiting], AtSwapped)
  {
    hide Registers, Lists, ListsRunning, ListsPaused, Remove;
    assert id in s.place && s.place[id] == AtSwapped by { ListsMember(s.swapped, s.place, AtSwapped, id); }
    RunningListElsewhere(s.running, s.place, id, AtWaiting);
    PausedElsewhere(s.paused, s.place, id, AtWaiting);
    ListsElsewhere(s.combined, s.place, AtCombined, id, AtWaiting);
    ListsAppend(s.waiting, s.place, AtWaiting, id);
    ListsRemove(s.swapped, s.place, AtSwapped, id, AtWaiting);
  }

  lemma DiscardedRegisters(s: Sys, s': Sys, id: Id)
    requires s.data.Keys == s.place.Keys && Registers(s) && id in s.swapped && s.split && !Stale(s.place, id)
    requires id in s.data && s' == RestartedSwapped(s, id, s'.pool)
    ensures Registers(s')
  {
    RemoveKeepsOthers(s.swapped, id);
    assert id !in s.waiting;
  }

  /** A request that preemption may take GPU blocks from: a preserved paused request, or a running one outside the
      batch. */
  ghost predicate Victim(s: Sys, v: Id, p: Place) {
    && v in s.place && v in s.data && s.place[v] == p
    && (if p.AtPaused? then v in s.paused && s.paused[v].Preserve?
        else (p.AtRunning? || p.AtDelayed? || p.AtCurrent?) && s.data[v].status.Running? && !s.split)
  }

  /** What making room may change: victims at place `p`, swapped requests, and nothing about the rest. */
  ghost predicate Kept(s: Sys, s': Sys, p: Place) {
    && s'.b == s.b && s'.limit == s.limit && s'.split == s.split
    && s'.place.Keys == s.place.Keys && s.data.Keys == s.place.Keys && s'.data.Keys == s'.place.Keys
    && forall x {:trigger KeptAt(s, s', x, p)} :: x in s.place ==> KeptAt(s, s', x, p)
  }

  ghost predicate KeptAt(s: Sys, s': Sys, x: Id, p: Place)
    requires x in s.place && x in s'.place && x in s.data && x in s'.data
  {
    var q, q' := s.place[x], s'.place[x];
    && (q' == q || (q == p && !p.AtPaused? && (q'.AtWaiting? || q'.AtSwapped?)) ||
         (!s.split && q.AtSwapped? && q'.AtWaiting?))
    && (q != p && !Spare(q, s.split) ==>
         s'.data[x] == s.data[x] && Lookup(s'.pool.tables, x) == Lookup(s.pool.tables, x))
    && s'.data[x].Remains(s.data[x])
    && (q != p && q.AtDelayed? ==> s'.data[x].status == s.data[x].status || (s.split && s'.data[x].status.Waiting?))
    && (s.split && q != p && q.AtCurrent? ==> InHand(s, s', x))
  }

  /** The target in hand is as it was, or lost its CPU blocks and restarts. */
  ghost predicate InHand(s: Sys, s': Sys, x: Id)
    requires x in s.data && x in s'.data
  {
    || (s'.data[x] == s.data[x] && Lookup(s'.pool.tables, x) == Lookup(s.pool.tables, x))
    || (s'.data[x] == s.data[x].Restarted().(status := Status.Waiting) && x !in s'.pool.tables)
  }

  /** Places whose requests may lose CPU blocks while room is made. */
  predicate Spare(q: Place, split: bool) {
    q.AtPaused? || q.AtSwapped? || (split && Unsettled(q))
  }

  lemma KeptTrans(s: Sys, s1: Sys, s2: Sys, p: Place)
    requires Kept(s, s1, p) && Kept(s1, s2, p)
    ensures Kept(s, s2, p)
  {
    forall x | x in s.place ensures KeptAt(s, s2, x, p) {
      assert KeptAt(s, s1, x, p) && KeptAt(s1, s2, x, p);
      KeptAtTrans(s, s1, s2, x, p);
    }
  }

  lemma KeptAtTrans(s: Sys, s1: Sys, s2: Sys, x: Id, p: Place)
    requires x in s.place && x in s1.place && x in s2.place && x in s.data && x in s1.data && x in s2.data
    requires s1.split == s.split && KeptAt(s, s1, x, p) && KeptAt(s1, s2, x, p)
    ensures KeptAt(s, s2, x, p)
  {
    hide InHand;
    if s.split && s.place[x] != p && s.place[x].AtCurrent? {
      InHandTrans(s, s1, s2, x);
    }
  }

  lemma InHandTrans(s: Sys, s1: Sys, s2: Sys, x: Id)
    requires x in s.data && x in s1.data && x in s2.data
    requires InHand(s, s1, x) && InHand(s1, s2, x)
    ensures InHand(s, s2, x)
  {
    if s1.data[x] == s.data[x].Restarted().(status := Status.Waiting) && x !in s1.pool.tables {
      assert Lookup(s1.pool.tables, x) == None;
      assert s1.data[x].Restarted().(status := Status.Waiting) == s1.data[x];
    }
  }

  /** A step on one victim or spare request keeps the rest. */
  lemma KeptFrom(s: Sys, s': Sys, v: Id, p: Place)
    requires OthersSame(s, s', v) && s'.split == s.split && KeptAt(s, s', v, p)
    ensures Kept(s, s', p)
  {
    forall x | x in s.place ensures KeptAt(s, s', x, p) {
      assert x != v ==> SameAt(s, s', x);
    }
  }

  lemma VictimFacts(s: Sys, l: Log, v: Id, p: Place)
    requires Sound(s, l) && Victim(s, v, p)
    ensures PoolOk(s.pool) && Exclusive(s.pool.tables) && s.b > 0
    ensures s.data.Keys == s.place.Keys && Queues(s)
    ensures v in s.pool.tables && !InBatch(s.place, v) && !s.place[v].AtDone?
    ensures var d, t := s.data[v], s.pool.tables[v];
      && Layout(s.b, d.Cleared(), t) && d.resumeDiscard == 0 && d.swapLength < |t| && d.Len() >= 1
      && GpuPrefix(t, |t| - d.swapLength) && |OnDevice(t, GPU)| == |t| - d.swapLength && NoDup(t)
      && 0 <= d.Cached() && 0 <= d.swapLength
    ensures v in s.paused <==> p.AtPaused?
    ensures p.AtPaused? ==> s.data[v].status.PausedApi? && s.data[v].Idle()
  {
    assert GoodAt(s, v);
    assert TableOk(s.pool, s.pool.tables[v]);
    CountPrefix(s.pool.tables[v], |s.pool.tables[v]| - s.data[v].swapLength);
  }

  lemma VictimKnown(s: Sys, l: Log, v: Id, p: Place)
    requires Sound(s, l) && Victim(s, v, p)
    ensures v in s.data && v in s.pool.tables && (v in s.paused <==> p.AtPaused?)
  {
    VictimFacts(s, l, v, p);
  }

  /** `v` gave all its blocks back and restarts, running or paused as it was. */
  ghost predicate DropStep(s: Sys, s': Sys, v: Id, onRunning: bool) {
    && v in s.data && (onRunning ==> s.running != [])
    && PoolOk(s'.pool) && SameArenas(s.pool, s'.pool) && s'.pool.tables == s.pool.tables - {v}
    && (var left := if onRunning then s.running[..|s.running| - 1] else s.running;
        s' == if v in s.paused
          then s.(pool := s'.pool, data := s.data[v := s.data[v].Restarted()], paused := s.paused[v := Recompute],
            running := left)
          else s.(pool := s'.pool, data := s.data[v := s.data[v].Restarted().(status := Status.Waiting)],
                  waiting := s.waiting + [v], place := s.place[v := AtWaiting], running := left))
  }

  lemma VictimDropped(s: Sys, l: Log, s': Sys, v: Id, p: Place)
    requires Sound(s, l) && Victim(s, v, p)
    requires p.AtRunning? ==> s.running != [] && s.running[|s.running| - 1] == v
    requires DropStep(s, s', v, p.AtRunning?)
    ensures Sound(s', l) && Dropped(s, s', v, p)
  {
    hide *;
    VictimFacts(s, l, v, p);
    DropParts(s, s', v, p);
    FreedCounts(s.pool, s'.pool, v);
    VictimDroppedQueues(s, s', v, p);
    ExclusiveWithout(s.pool.tables, v);
    VictimDroppedFrame(s, s', v, p);
    StepFree(s, l, s', v);
    KeptFrom(s, s', v, p);
    DroppedFrom(s, s', v, p);
  }

  lemma DropParts(s: Sys, s': Sys, v: Id, p: Place)
    requires DropStep(s, s', v, p.AtRunning?) && (v in s.paused <==> p.AtPaused?)
    ensures PoolOk(s'.pool) && SameArenas(s.pool, s'.pool) && s'.pool.tables == s.pool.tables - {v} && v in s.data
    ensures p.AtPaused? ==>
      s' == s.(pool := s'.pool, data := s.data[v := s.data[v].Restarted()], paused := s.paused[v := Recompute])
    ensures !p.AtPaused? ==>
      s' == s.(pool := s'.pool, data := s.data[v := s.data[v].Restarted().(status := Status.Waiting)],
               waiting := s.waiting + [v], place := s.place[v := AtWaiting],
               running := if p.AtRunning? then s.running[..|s.running| - 1] else s.running)
    ensures p.AtRunning? ==> s.running != []
  {
  }

  lemma DropFields(s: Sys, s': Sys, v: Id, onRunning: bool)
    requires DropStep(s, s', v, onRunning)
    ensures v in s.paused ==> s'.paused == s.paused[v := Recompute] && s'.waiting == s.waiting
    ensures v !in s'.pool.tables && v in s'.data && s'.data[v].Cached() == 0
  {
  }

  lemma DropCounts(s: Sys, s': Sys, v: Id, onRunning: bool)
    requires DropStep(s, s', v, onRunning) && PoolOk(s.pool) && Exclusive(s.pool.tables) && v in s.pool.tables
    ensures |s'.pool.cpu.free| == |s.pool.cpu.free| + |OnDevice(s.pool.tables[v], CPU)|
  {
    hide PoolOk, Exclusive;
    FreedCounts(s.pool, s'.pool, v);
  }

  /** Victim `v` lost its table and its place; nothing else happened. */
  ghost predicate Dropped(s: Sys, s': Sys, v: Id, p: Place) {
    && Kept(s, s', p) && OthersSame(s, s', v)
    && SameArenas(s.pool, s'.pool)
    && v in s.pool.tables && |s'.pool.gpu.free| == |s.pool.gpu.free| + |OnDevice(s.pool.tables[v], GPU)|
    && (!p.AtPaused? ==> v in s'.place && s'.place[v] != p)
    && s'.swapped == s.swapped && (v in s.paused ==> s.paused[v].Preserve?)
    && (p.AtPaused? ==> s'.waiting == s.waiting)
  }

  lemma DroppedFrom(s: Sys, s': Sys, v: Id, p: Place)
    requires Victim(s, v, p) && Kept(s, s', p) && OthersSame(s, s', v) && SameArenas(s.pool, s'.pool)
    requires v in s.pool.tables && |s'.pool.gpu.free| == |s.pool.gpu.free| + |OnDevice(s.pool.tables[v], GPU)|
    requires !p.AtPaused? ==> s'.place == s.place[v := AtWaiting]
    requires s'.swapped == s.swapped && (v in s.paused <==> p.AtPaused?)
    requires p.AtPaused? ==> s'.waiting == s.waiting
    ensures Dropped(s, s', v, p)
  {
  }

  lemma FreedCounts(p: Pool, q: Pool, id: Id)
    requires PoolOk(p) && PoolOk(q) && Exclusive(p.tables) && SameArenas(p, q)
    requires id in p.tables && q.tables == p.tables - {id}
    ensures |q.gpu.free| == |p.gpu.free| + |OnDevice(p.tables[id], GPU)|
    ensures |q.cpu.free| == |p.cpu.free| + |OnDevice(p.tables[id], CPU)|
  {
    DroppedCounts(p, q, id, GPU);
    DroppedCounts(p, q, id, CPU);
  }

  lemma VictimDroppedFrame(s: Sys, s': Sys, v: Id, p: Place)
    requires Victim(s, v, p) && PoolOk(s'.pool) && Exclusive(s'.pool.tables) && s.b > 0
    requires s.data.Keys == s.place.Keys && s.data[v].Len() >= 1 && !InBatch(s.place, v)
    requires p.AtPaused? ==> s.data[v].status.PausedApi?
    requires s'.pool.tables == s.pool.tables - {v}
    requires p.AtPaused? ==>
      s' == s.(pool := s'.pool, data := s.data[v := s.data[v].Restarted()], paused := s.paused[v := Recompute])
    requires !p.AtPaused? ==> v !in s.paused
    requires !p.AtPaused? ==>
      s' == s.(pool := s'.pool, data := s.data[v := s.data[v].Restarted().(status := Status.Waiting)],
               waiting := s'.waiting, place := s.place[v := AtWaiting], running := s'.running)
    ensures OthersSame(s, s', v) && GoodAt(s', v) && !InBatch(s'.place, v) && KeptAt(s, s', v, p)
  {
    RestartedGood(s.b, s.data[v]);
    OthersSameFrom(s, s', v);
  }

  lemma VictimDroppedQueues(s: Sys, s': Sys, v: Id, p: Place)
    requires Victim(s, v, p) && s.data.Keys == s.place.Keys && Queues(s)
    requires p.AtRunning? ==> s.running != [] && s.running[|s.running| - 1] == v
    requires p.AtPaused? ==>
      s' == s.(pool := s'.pool, data := s.data[v := s.data[v].Restarted()], paused := s.paused[v := Recompute])
    requires !p.AtPaused? ==>
      s' == s.(pool := s'.pool, data := s.data[v := s.data[v].Restarted().(status := Status.Waiting)],
               waiting := s.waiting + [v], place := s.place[v := AtWaiting],
               running := if p.AtRunning? then s.running[..|s.running| - 1] else s.running)
    ensures Queues(s')
  {
    if !p.AtPaused? {
      ListsAppend(s.waiting, s.place, AtWaiting, v);
      if p.AtRunning? {
        assert s.running == s'.running + [v];
        assert v !in s'.running;
      }
    }
  }

  /** The counters of a sequence whose whole table, of `n` blocks, is on the CPU. */
  function SwappedRec(d: SeqRec, n: nat): SeqRec {
    d.Cleared().(discardStart := 0, discardLength := 0, swapStart := 0, swapLength := n)
  }

  lemma NothingToMove(tables: map<Id, Table>, moved: map<Id, Table>, v: Id, m: map<nat, nat>)
    requires v in tables && GpuPrefix(tables[v], 0) && GroupMoved(tables, moved, [v], GPU, m)
    ensures moved == tables && m == map[]
  {
    forall n ensures n !in m {
      assert Block(GPU, n) !in tables[v];
      assert forall x :: x in [v] ==> x == v;
    }
    assert TableMoved(tables, tables[v], moved[v], GPU, m);
    assert moved[v] == tables[v];
  }

  /** Victim `v` gave `num` GPU blocks away; when `full` it left its victim list. */
  ghost predicate Offered(s: Sys, s': Sys, v: Id, p: Place, num: nat, full: bool) {
    && Kept(s, s', p) && OthersSame(s, s', v)
    && SameArenas(s.pool, s'.pool)
    && |s'.pool.gpu.free| == |s.pool.gpu.free| + num
    && (!full ==> Victim(s', v, p))
    && (full && !p.AtPaused? ==> v in s'.place && s'.place[v] != p)
    && (s'.swapped == s.swapped || s'.swapped == s.swapped + [v]) && (v in s.paused ==> s.paused[v].Preserve?)
    && (p.AtPaused? ==> s'.waiting == s.waiting && s'.swapped == s.swapped)
  }

  /** The counters after `num` blocks left the end of the GPU prefix. */
  function OfferedRec(d: SeqRec, num: nat, b: nat): SeqRec
    requires b > 0 && 0 <= d.Cached()
  {
    d.(swapStart := if d.swapLength == 0 then CeilDiv(d.Cached(), b) - num else d.swapStart - num,
       swapLength := d.swapLength + num)
  }

  /** `num` blocks of `v` left for the CPU; its place and status are still as they were. */
  ghost predicate OfferStep(s: Sys, l: Log, s1: Sys, l1: Log, v: Id, num: nat, m: map<nat, nat>) {
    && v in s.data && v in s.pool.tables && v in s1.pool.tables && s.b > 0 && 0 <= s.data[v].Cached()
    && s1 == s.(pool := s1.pool, data := s.data[v := OfferedRec(s.data[v], num, s.b)])
    && s1.pool.tables == s.pool.tables[v := s1.pool.tables[v]] && |s1.pool.tables[v]| == |s.pool.tables[v]|
    && Moved(s.pool.tables, s.pool.tables[v], s1.pool.tables[v], GPU, m)
    && PoolOk(s1.pool) && Exclusive(s1.pool.tables) && SameArenas(s.pool, s1.pool)
    && |s1.pool.gpu.free| == |s.pool.gpu.free| + num
    && GpuPrefix(s1.pool.tables[v], |s1.pool.tables[v]| - s1.data[v].swapLength)
    && l1 == LoggedOut(l, s.pool.tables[v], s1.pool.tables[v], m)
  }

  /** A victim without GPU blocks went to the swapped queue, or its pause mode became `Swap`. */
  ghost predicate RetireStep(s1: Sys, s': Sys, v: Id, onRunning: bool) {
    && v in s1.data && v in s1.pool.tables && (onRunning ==> s1.running != [])
    && PoolOk(s'.pool) && s'.pool.tables == s1.pool.tables && SameArenas(s1.pool, s'.pool)
    && (var rec := SwappedRec(s1.data[v], |s1.pool.tables[v]|);
        var left := if onRunning then s1.running[..|s1.running| - 1] else s1.running;
        s' == if v in s1.paused
          then s1.(pool := s'.pool, data := s1.data[v := rec], paused := s1.paused[v := Swap], running := left)
          else s1.(pool := s'.pool, data := s1.data[v := rec.(status := Status.Swapped)],
                   swapped := s1.swapped + [v], place := s1.place[v := AtSwapped], running := left))
  }

  lemma OfferedFacts(s: Sys, l: Log, s1: Sys, l1: Log, v: Id, p: Place, num: nat, m: map<nat, nat>)
    requires Sound(s, l) && Victim(s, v, p) && num >= 1
    requires OfferStep(s, l, s1, l1, v, num, m)
    ensures v in s1.data && v in s1.pool.tables && s.b > 0
    ensures 0 <= s1.data[v].Cached() && |s1.pool.tables[v]| == CeilDiv(s1.data[v].Cached(), s.b)
    ensures |OnDevice(s1.pool.tables[v], GPU)| == |s1.pool.tables[v]| - s1.data[v].swapLength
    ensures |OnDevice(s1.pool.tables[v], GPU)| == 0 ==>
      s1.data[v].swapStart == 0 && GpuPrefix(s1.pool.tables[v], 0)
    ensures Layout(s.b, s1.data[v].Cleared(), s1.pool.tables[v]) && s1.data[v].swapLength >= 1
  {
    hide Sound, Victim, Moved, Exclusive, PoolOk, OnDevice, NoDup, LoggedOut, SameArenas, Queues;
    VictimFacts(s, l, v, p);
    PoolParts(s1.pool, v);
    CountPrefix(s1.pool.tables[v], |s1.pool.tables[v]| - s1.data[v].swapLength);
  }

  lemma VictimOffered(s: Sys, l: Log, s1: Sys, s': Sys, l': Log, v: Id, p: Place, m: map<nat, nat>, num: nat,
                      full: bool)
    requires Sound(s, l) && Victim(s, v, p) && num >= 1
    requires p.AtRunning? ==> s.running != [] && s.running[|s.running| - 1] == v
    requires OfferStep(s, l, s1, l', v, num, m)
    requires v in s1.pool.tables && (full <==> |OnDevice(s1.pool.tables[v], GPU)| == 0)
    requires if full then RetireStep(s1, s', v, p.AtRunning?) else s' == s1
    ensures Sound(s', l') && Offered(s, s', v, p, num, full)
    ensures v in s.pool.tables && (full <==> num == |OnDevice(s.pool.tables[v], GPU)|)
  {
    hide Moved, PoolOk, Exclusive, Layout, Queues, Victim, Sound, GpuPrefix, Kept, KeptAt, OthersSame, GoodAt, Offered;
    hide OnDevice;
    VictimFacts(s, l, v, p);
    VictimBrief(s, v, p);
    OfferedFacts(s, l, s1, l', v, p, num, m);
    OfferedSame(s.data[v], num, s.b, |s1.pool.tables[v]|);
    VictimOfferedQueues(s, s', v, p, full);
    OthersSameFrom(s, s', v);
    SameFree(s1.pool, s'.pool);
    VictimOfferedGood(s, l, s1, s', v, p, full);
    KeptVictim(s, s', v, p);
    StepOut(s, l, s', v, m);
    KeptFrom(s, s', v, p);
    OfferedFrom(s, s', v, p, num, full);
  }

  lemma SameFree(p: Pool, q: Pool)
    requires PoolOk(p) && PoolOk(q) && q.tables == p.tables && SameArenas(p, q)
    ensures |q.gpu.free| == |p.gpu.free| && |q.cpu.free| == |p.cpu.free|
  {
    FreePlusOwned(p, GPU);
    FreePlusOwned(q, GPU);
    FreePlusOwned(p, CPU);
    FreePlusOwned(q, CPU);
    assert OwnedNumbers(p, GPU) == OwnedNumbers(q, GPU) && OwnedNumbers(p, CPU) == OwnedNumbers(q, CPU);
  }

  lemma VictimOfferedQueues(s: Sys, s': Sys, v: Id, p: Place, full: bool)
    requires Victim(s, v, p) && s.data.Keys == s.place.Keys && Queues(s)
    requires p.AtRunning? ==> s.running != [] && s.running[|s.running| - 1] == v
    requires v in s'.data && s'.data == s.data[v := s'.data[v]]
    requires !full || p.AtPaused? ==> s'.data[v].status == s.data[v].status
    requires s'.split == s.split && s'.waiting == s.waiting && s'.combined == s.combined
    requires if full && !p.AtPaused? then
        s'.swapped == s.swapped + [v] && s'.place == s.place[v := AtSwapped] && s'.paused == s.paused &&
        s'.running == if p.AtRunning? then s.running[..|s.running| - 1] else s.running
      else
        s'.swapped == s.swapped && s'.place == s.place && s'.running == s.running &&
        s'.paused == if full then s.paused[v := Swap] else s.paused
    ensures Queues(s')
  {
    if full && !p.AtPaused? {
      ListsAppend(s.swapped, s.place, AtSwapped, v);
      if p.AtRunning? {
        assert s.running == s'.running + [v];
        assert v !in s'.running;
      }
    }
  }

  lemma VictimOfferedGood(s: Sys, l: Log, s1: Sys, s': Sys, v: Id, p: Place, full: bool)
    requires Sound(s, l) && Victim(s, v, p) && s'.b == s.b && s'.limit == s.limit && s.b > 0 && 0 <= s.data[v].Cached()
    requires v in s1.pool.tables && v in s'.pool.tables && s'.pool.tables[v] == s1.pool.tables[v]
    requires v in s1.data && v in s'.data && v in s'.place
    requires s1.data[v].(swapStart := 0, swapLength := 0) == s.data[v].(swapStart := 0, swapLength := 0)
    requires Layout(s.b, s1.data[v].Cleared(), s1.pool.tables[v]) && s1.data[v].swapLength >= 1
    requires full <==> s1.data[v].swapLength == |s1.pool.tables[v]|
    requires !full ==> s'.data[v] == s1.data[v] && s'.place[v] == p && s'.paused == s.paused
    requires full && p.AtPaused? ==>
      s'.data[v] == SwappedRec(s1.data[v], |s1.pool.tables[v]|) && s'.place[v] == p && s'.paused == s.paused[v := Swap]
    requires full && !p.AtPaused? ==>
      s'.data[v] == SwappedRec(s1.data[v], |s1.pool.tables[v]|).(status := Status.Swapped) &&
        s'.place[v] == AtSwapped &&
      s'.paused == s.paused
    ensures GoodAt(s', v) && !InBatch(s.place, v) && !InBatch(s'.place, v) && !s.place[v].AtDone?
    ensures s'.data[v].Cached() == s.data[v].Cached()
  {
    hide Sound, AllGood, Queues;
    VictimGood(s, l, v, p);
  }

  lemma VictimGood(s: Sys, l: Log, v: Id, p: Place)
    requires Sound(s, l) && Victim(s, v, p)
    ensures s.place[v] == p && GoodAt(s, v) && (p.AtPaused? || p.AtRunning? || p.AtDelayed? || p.AtCurrent?)
    ensures p.AtPaused? ==> v in s.paused && s.paused[v].Preserve?
    ensures !p.AtPaused? ==> s.data[v].status.Running?
  {
  }

  lemma OfferedSame(d: SeqRec, num: nat, b: nat, n: nat)
    requires b > 0 && 0 <= d.Cached()
    ensures var d' := OfferedRec(d, num, b);
      && d'.(swapStart := 0, swapLength := 0) == d.(swapStart := 0, swapLength := 0)
      && d'.status == d.status && d'.swapLength == d.swapLength + num
      && SwappedRec(d', n).status == d.status
      && d'.Remains(d) && SwappedRec(d', n).Remains(d)
  {
  }

  lemma VictimReady(s: Sys, l: Log, v: Id, p: Place)
    requires Sound(s, l) && Victim(s, v, p)
    ensures Exclusive(s.pool.tables) && v in s.data && v in s.pool.tables && 0 <= s.data[v].Cached() && s.b > 0
    ensures GpuPrefix(s.pool.tables[v], |s.pool.tables[v]| - s.data[v].swapLength)
    ensures |OnDevice(s.pool.tables[v], GPU)| == |s.pool.tables[v]| - s.data[v].swapLength
  {
    VictimFacts(s, l, v, p);
  }

  lemma VictimBrief(s: Sys, v: Id, p: Place)
    requires Victim(s, v, p)
    ensures v in s.place && v in s.data && s.place[v] == p
    ensures p.AtPaused? ==> v in s.paused && s.paused[v].Preserve?
  {
  }

  lemma KeptVictim(s: Sys, s': Sys, v: Id, p: Place)
    requires Victim(s, v, p) && OthersSame(s, s', v) && s'.split == s.split
    requires s'.place == s.place || (!p.AtPaused? &&
      (s'.place == s.place[v := AtSwapped] || s'.place == s.place[v := AtWaiting]))
    requires s'.data[v].Remains(s.data[v])
    ensures KeptAt(s, s', v, p)
  {
  }

  lemma OfferedFrom(s: Sys, s': Sys, v: Id, p: Place, num: nat, full: bool)
    requires Victim(s, v, p) && Kept(s, s', p) && OthersSame(s, s', v) && SameArenas(s.pool, s'.pool)
    requires |s'.pool.gpu.free| == |s.pool.gpu.free| + num
    requires !full ==> s'.place == s.place && s'.paused == s.paused && s'.data[v].status == s.data[v].status
    requires full && !p.AtPaused? ==> s'.place == s.place[v := AtSwapped]
    requires s'.swapped == s.swapped || s'.swapped == s.swapped + [v]
    requires p.AtPaused? ==> s'.waiting == s.waiting && s'.swapped == s.swapped
    requires v in s.paused <==> p.AtPaused?
    ensures Offered(s, s', v, p, num, full)
  {
  }

  /** A victim list: preserved paused requests, or exactly the running requests at one place. */
  ghost predicate VictimList(s: Sys, vs: seq<Id>, p: Place) {
    && NoDup(vs)
    && (forall v {:trigger Victim(s, v, p)} :: v in vs ==> Victim(s, v, p))
    && (!p.AtPaused? ==> forall x :: x in s.place && s.place[x] == p ==> x in vs)
  }

  /** Where `PassiveDiscard` stands: `done` GPU blocks more are free than at its start. */
  ghost predicate Discarding(s0: Sys, s: Sys, rest: seq<Id>, discards: seq<Id>, p: Place, done: int) {
    && Kept(s0, s, p) && SameArenas(s0.pool, s.pool)
    && VictimList(s, rest, p) && Discards(s, discards)
    && |s.pool.gpu.free| == |s0.pool.gpu.free| + done && done >= 0
    && (p.AtPaused? ==> NoMore(s0, s))
  }

  /** The last victim has more GPU blocks than are required. */
  ghost predicate TooBig(s: Sys, victims: seq<Id>, required: int) {
    victims != [] && (var v := victims[|victims| - 1];
      v in s.pool.tables && required < |OnDevice(s.pool.tables[v], GPU)|)
  }

  lemma DiscardingFacts(s0: Sys, s: Sys, rest: seq<Id>, discards: seq<Id>, p: Place, done: int)
    requires Discarding(s0, s, rest, discards, p, done)
    ensures Kept(s0, s, p) && SameArenas(s0.pool, s.pool) && VictimList(s, rest, p)
    ensures |s.pool.gpu.free| == |s0.pool.gpu.free| + done && done >= 0
    ensures p.AtPaused? ==> NoMore(s0, s)
  {
  }

  lemma DiscardingLists(s0: Sys, s: Sys, rest: seq<Id>, discards: seq<Id>, p: Place, done: int)
    requires Discarding(s0, s, rest, discards, p, done)
    ensures Discards(s, discards)
  {
  }

  lemma DiscardingStart(s: Sys, l: Log, victims: seq<Id>, discards: seq<Id>, bySwap: seq<Id>, p: Place)
    requires Sound(s, l) && discards == s.swapped + bySwap && VictimList(s, victims, p)
    requires NoDup(bySwap) && forall x :: x in bySwap <==> x in s.paused && s.paused[x].Swap?
    ensures Discarding(s, s, victims, discards, p, 0)
  {
    SwappedNotPaused(s, l);
    NoDupConcat(s.swapped, bySwap);
  }

  lemma NoDupConcat(a: seq<Id>, b: seq<Id>)
    requires NoDup(a) && NoDup(b) && forall x :: x in a ==> x !in b
    ensures NoDup(a + b)
  {
    forall i, j | 0 <= i < j < |a + b| ensures (a + b)[i] != (a + b)[j] {
      if i < |a| <= j {
        assert a[i] in a && b[j - |a|] in b;
      }
    }
  }

  lemma SwappedNotPaused(s: Sys, l: Log)
    requires Sound(s, l)
    ensures s.data.Keys == s.place.Keys
    ensures NoDup(s.swapped) && forall x :: x in s.swapped ==> x !in s.paused
    ensures forall x :: x in s.swapped ==> x in s.place && !s.place[x].AtPaused? && !s.place[x].AtRunning?
    ensures !s.split ==> forall x :: x in s.swapped ==> s.place[x].AtSwapped?
  {
  }

  lemma LastVictim(s0: Sys, s: Sys, l: Log, vs: seq<Id>, discards: seq<Id>, p: Place, done: int)
    requires Sound(s, l) && Discarding(s0, s, vs, discards, p, done) && vs != []
    ensures var v := vs[|vs| - 1];
      Victim(s, v, p) && v in s.pool.tables && |OnDevice(s.pool.tables[v], GPU)| >= 1
    ensures Discards(s, discards)
    ensures var space := |OnDevice(s.pool.tables[vs[|vs| - 1]], GPU)|; forall n :: n < space ==> TooBig(s, vs, n)
  {
    var v := vs[|vs| - 1];
    assert v in vs && Victim(s, v, p);
    VictimFacts(s, l, v, p);
  }

  lemma KeptWider(s: Sys, s': Sys, p: Place)
    requires Kept(s, s', AtPaused)
    ensures Kept(s, s', p)
  {
    forall x | x in s.place ensures KeptAt(s, s', x, p) {
      assert KeptAt(s, s', x, AtPaused);
    }
  }

  lemma RoomKeeps(s0: Sys, s: Sys, s1: Sys, vs: seq<Id>, discards: seq<Id>, discards': seq<Id>,
                  p: Place, v: Id, done: int, hazard: bool)
    requires Discarding(s0, s, vs, discards, p, done) && RoomMade(s, s1) && v in vs
    requires !hazard ==> Discards(s1, discards')
    ensures Discarding(s0, s1, vs, if hazard then [] else discards', p, done) && Victim(s1, v, p)
    ensures v in s.pool.tables ==> v in s1.pool.tables && s1.pool.tables[v] == s.pool.tables[v]
  {
    KeptWider(s, s1, p);
    KeptTrans(s0, s, s1, p);
    forall x | x in vs ensures Victim(s1, x, p) && Lookup(s1.pool.tables, x) == Lookup(s.pool.tables, x) {
      VictimRoom(s, s1, x, p);
    }
    if !p.AtPaused? {
      assert Victim(s, v, p);
      NoNewcomers(s, s1, vs, p);
    }
  }

  lemma VictimRoom(s: Sys, s1: Sys, x: Id, p: Place)
    requires Victim(s, x, p) && RoomMade(s, s1)
    ensures Victim(s1, x, p) && Lookup(s1.pool.tables, x) == Lookup(s.pool.tables, x)
  {
    assert KeptAt(s, s1, x, AtPaused);
    if p.AtPaused? {
      assert PreservedAt(s, s1, x);
    }
  }

  lemma NoNewcomers(s: Sys, s1: Sys, vs: seq<Id>, p: Place)
    requires Kept(s, s1, AtPaused) && (p.AtRunning? || p.AtDelayed? || p.AtCurrent?)
    requires forall x :: x in s.place && s.place[x] == p ==> x in vs
    ensures forall x :: x in s1.place && s1.place[x] == p ==> x in vs
  {
    forall x | x in s1.place && s1.place[x] == p ensures x in vs {
      assert KeptAt(s, s1, x, AtPaused);
    }
  }

  lemma VictimNotDiscarded(s: Sys, l: Log, v: Id, p: Place, discards: seq<Id>)
    requires Sound(s, l) && Victim(s, v, p) && Discards(s, discards)
    ensures v !in discards && forall x :: x in s.paused ==> x in s.place
  {
    SwappedNotPaused(s, l);
    VictimKnown(s, l, v, p);
  }

  /** After a step on victim `v` alone the other victims and the discardable requests are as before. */
  lemma VictimGone(s: Sys, l: Log, s': Sys, vs: seq<Id>, discards: seq<Id>, p: Place, v: Id)
    requires OthersSame(s, s', v) && s'.split == s.split && VictimList(s, vs, p) && vs != [] && vs[|vs| - 1] == v
    requires forall x :: x in s.paused ==> x in s.place
    requires Discards(s, discards) && v !in discards
    requires s'.swapped == s.swapped || s'.swapped == s.swapped + [v]
    requires !p.AtPaused? ==> v in s'.place && s'.place[v] != p
    ensures VictimList(s', vs[..|vs| - 1], p) && Discards(s', discards)
  {
    var r := vs[..|vs| - 1];
    assert vs == r + [v];
    assert v !in r;
    forall x | x in r ensures Victim(s', x, p) {
      assert Victim(s, x, p) && SameAt(s, s', x);
    }
    forall x | !p.AtPaused? && x in s'.place && s'.place[x] == p ensures x in r {
      assert SameAt(s, s', x);
    }
    DiscardsKept(s, s', discards, v);
  }

  lemma DiscardsKept(s: Sys, s': Sys, discards: seq<Id>, v: Id)
    requires OthersSame(s, s', v) && Discards(s, discards) && v !in discards
    requires forall x :: x in s.paused ==> x in s.place
    requires s'.swapped == s.swapped || s'.swapped == s.swapped + [v]
    ensures Discards(s', discards)
  {
    forall x | x in discards ensures (x in s'.paused && s'.paused[x].Swap?) || x in s'.swapped {
      if x !in s.swapped && x in s.place {
        assert SameAt(s, s', x);
      }
    }
  }

  lemma DroppedKeeps(s0: Sys, s: Sys, l: Log, s': Sys, vs: seq<Id>, discards: seq<Id>, p: Place, v: Id, done: int)
    requires Sound(s, l) && Discarding(s0, s, vs, discards, p, done) && Dropped(s, s', v, p) && Victim(s, v, p)
    requires vs != [] && vs[|vs| - 1] == v
    ensures v in s.pool.tables
    ensures Discarding(s0, s', vs[..|vs| - 1], discards, p, done + |OnDevice(s.pool.tables[v], GPU)|)
  {
    VictimNotDiscarded(s, l, v, p, discards);
    KeptTrans(s0, s, s', p);
    VictimGone(s, l, s', vs, discards, p, v);
  }

  lemma OfferedKeeps(s0: Sys, s: Sys, l: Log, s': Sys, vs: seq<Id>, discards: seq<Id>, p: Place, v: Id,
                     num: nat, full: bool, done: int)
    requires Sound(s, l) && Discarding(s0, s, vs, discards, p, done)
    requires Offered(s, s', v, p, num, full) && Victim(s, v, p)
    requires vs != [] && vs[|vs| - 1] == v
    ensures Discarding(s0, s', if full then vs[..|vs| - 1] else vs, discards, p, done + num)
  {
    VictimNotDiscarded(s, l, v, p, discards);
    KeptTrans(s0, s, s', p);
    if full {
      VictimGone(s, l, s', vs, discards, p, v);
    } else {
      DiscardsKept(s, s', discards, v);
      VictimsStay(s, s', vs, p, v);
    }
  }

  lemma VictimsStay(s: Sys, s': Sys, vs: seq<Id>, p: Place, v: Id)
    requires VictimList(s, vs, p) && OthersSame(s, s', v) && s'.split == s.split && v in vs && Victim(s', v, p)
    ensures VictimList(s', vs, p)
  {
    hide PoolOk, Exclusive;
    forall x | x in vs && x != v ensures Victim(s', x, p) {
      assert Victim(s, x, p) && SameAt(s, s', x);
    }
    forall x | !p.AtPaused? && x in s'.place && s'.place[x] == p && x != v ensures x in vs {
      assert SameAt(s, s', x);
    }
  }
}
