/** The iteration-level scheduler for requests that pause for API calls, in its two variants. */
module Schedulers {
  import opened Basics
  import opened Blocks
  import opened Sequences
  import opened Layouts
  import opened BlockManager
  import opened System
  import opened Memory
  import opened Steps
  import opened Preemption
  import opened CpuRooms
  import opened Rounds
  import opened Phases
  import opened Victims
  import opened Reclaims
  import opened Turns
  import opened Ledgers
  import opened Iterations
  import opened Sorting
  import opened Worker
  import opened CacheWrites
  import opened Outputs
  import opened Replies

  class Scheduler {
    const variant: Variant
    const mgr: BlockSpaceManager
    const promptLimit: int
    const maxNumSeqs: int
    var waiting: seq<Id>
    var running: seq<Id>
    var swapped: seq<Id>
    var combined: seq<Id>
    var paused: map<Id, Mode>
    var data: map<Id, SeqRec>
    var batchMaxTokens: int
    var maxSwapInBlocks: int
    var maxSwapOutBlocks: int
    var blocksToSwapOut: map<nat, nat>
    var blocksToSwapIn: map<nat, nat>

    /** The model's own record of where every request is; the source has no such field. */
    var place: map<Id, Place>
    var split: bool
    ghost var start: Mem
    ghost var now: Mem
    ghost var clash: bool

    constructor (v: Variant, blockSize: nat, numGpuBlocks: nat, numCpuBlocks: nat, limit: int, maxSeqs: int,
                 ghost mem: Mem)
      requires blockSize > 0
      ensures Valid() && fresh(mgr) && fresh(mgr.gpu) && fresh(mgr.cpu)
      ensures variant == v && promptLimit == limit && maxNumSeqs == maxSeqs && mgr.blockSize == blockSize
      ensures data == map[] && place == map[] && !split && !clash && start == now == mem
      ensures blocksToSwapOut == map[] && blocksToSwapIn == map[]
    {
      variant, promptLimit, maxNumSeqs := v, limit, maxSeqs;
      mgr := new BlockSpaceManager(blockSize, numGpuBlocks, numCpuBlocks);
      waiting, running, swapped, combined, paused := [], [], [], [], map[];
      batchMaxTokens, maxSwapInBlocks, maxSwapOutBlocks := 0, 0, 0;
      blocksToSwapOut, blocksToSwapIn := map[], map[];
      data, place, split, start, now, clash := map[], map[], false, mem, mem, false;
    }

    ghost function View(): Sys
      reads this`data, this`waiting, this`running, this`swapped, this`combined, this`paused, this`place, this`split
      reads mgr, mgr.gpu, mgr.cpu
    {
      Sys(mgr.blockSize, promptLimit, mgr.View(), data, waiting, running, swapped, combined, paused, place, split)
    }

    ghost function Journaled(): Log
      reads this`start, this`now, this`blocksToSwapOut, this`blocksToSwapIn, this`clash
    {
      Log(start, now, blocksToSwapOut, blocksToSwapIn, clash)
    }

    ghost predicate Valid()
      reads this`data, this`waiting, this`running, this`swapped, this`combined, this`paused, this`place, this`split
      reads this`start, this`now, this`blocksToSwapOut, this`blocksToSwapIn, this`clash, mgr, mgr.gpu, mgr.cpu
    {
      mgr.Valid() && Sound(View(), Journaled())
    }

    /** The free CPU blocks can take the GPU blocks of every preserved paused request. */
    ghost predicate CpuRoom()
      reads this`paused, mgr, mgr.gpu, mgr.cpu
    {
      Roomy(mgr.View(), paused)
    }

    /** What is left of the iteration's limits. */
    ghost function LimitsNow(): Limits
      reads this`batchMaxTokens, this`maxSwapInBlocks, this`maxSwapOutBlocks
    {
      Limits(batchMaxTokens, maxSwapInBlocks, maxSwapOutBlocks)
    }

    lemma LimitsAre()
      ensures LimitsNow() == Limits(batchMaxTokens, maxSwapInBlocks, maxSwapOutBlocks)
    {
    }

    lemma ShownRoom()
      ensures CpuRoom() <==> Roomy(View().pool, View().paused)
    {
    }

    lemma Known()
      requires Valid()
      ensures mgr.Valid() && Sound(View(), Journaled())
    {
    }

    lemma Established()
      requires mgr.Valid() && Sound(View(), Journaled())
      ensures Valid()
    {
    }

    lemma ShownData()
      ensures View().data == data && View().place == place && View().swapped == swapped && View().paused == paused
      ensures View().waiting == waiting
    {
    }

    lemma ShownPool()
      ensures View().pool == mgr.View() && View().pool.tables == mgr.blockTables && View().split == split
      ensures View().running == running && View().combined == combined
      ensures |View().pool.gpu.free| == |mgr.gpu.freeBlocks| && |View().pool.cpu.free| == |mgr.cpu.freeBlocks|
    {
    }

    lemma ShownTargets(q: Queue)
      ensures Targets(q) == TargetsOf(View(), q)
    {
    }

    lemma ShownPending()
      ensures Journaled().outs == blocksToSwapOut && Journaled().ins == blocksToSwapIn && Journaled().clash == clash
    {
    }

    lemma ShownMemory()
      ensures Journaled().now == now && Journaled().start == start
      ensures View().b == mgr.blockSize && View().limit == promptLimit
    {
    }

    lemma Capacity(n: int)
      ensures mgr.CanFulfillBlocks(n) <==> n <= |mgr.gpu.freeBlocks|
    {
    }

    // ---- Preemption

    method PreemptByRecompute(id: Id)
      requires mgr.Valid() && id in data
      modifies this`waiting, this`data, mgr, mgr.gpu, mgr.cpu
      ensures mgr.Valid()
      ensures waiting == old(waiting) + [id]
      ensures data == old(data)[id := old(data)[id].Restarted().(status := Status.Waiting)]
      ensures mgr.blockTables == old(mgr.blockTables) - {id}
      ensures SameArenas(old(mgr.View()), mgr.View())
    {
      data := data[id := data[id].(status := Status.Waiting)];
      data := data[id := data[id].Restarted()];
      mgr.Free(id);
      waiting := waiting + [id];
    }

    method PauseByRecompute(id: Id)
      requires mgr.Valid() && id in data
      modifies this`paused, this`data, mgr, mgr.gpu, mgr.cpu
      ensures mgr.Valid()
      ensures paused == old(paused)[id := Recompute]
      ensures data == old(data)[id := old(data)[id].Restarted()]
      ensures mgr.blockTables == old(mgr.blockTables) - {id}
      ensures SameArenas(old(mgr.View()), mgr.View())
    {
      data := data[id := data[id].Restarted()];
      mgr.Free(id);
      paused := paused[id := Recompute];
    }

    /** A swapped request loses its CPU blocks. */
    method DiscardSwapped(id: Id)
      requires Valid() && id in swapped && !(split && Stale(place, id))
      modifies this`waiting, this`swapped, this`data, this`place, mgr, mgr.gpu, mgr.cpu
      ensures Valid() && Spared(old(View()), View(), id)
      ensures swapped == Remove(old(swapped), id) && waiting == old(waiting) + [id]
      ensures id in old(View()).data && View() == RestartedSwapped(old(View()), id, View().pool)
      ensures View().pool.tables == old(View()).pool.tables - {id}
      ensures old(CpuRoom()) ==> CpuRoom()
    {
      hide *;
      Known();
      ShownData();
      ShownPool();
      ShownRoom();
      ghost var s, l := View(), Journaled();
      SwappedTarget(s, l, id);
      RestartSwapped(id);
      RestartedSwappedFields(s, id, View().pool);
      SwappedDiscarded(s, l, View(), id);
      Established();
      ShownData();
      ShownRoom();
      if old(CpuRoom()) {
        SoundKeys(s, l);
        RoomySpared(s, View(), id);
      }
    }

    method RestartSwapped(id: Id)
      requires mgr.Valid() && id in data
      modifies this`waiting, this`swapped, this`data, this`place, mgr, mgr.gpu, mgr.cpu
      ensures mgr.Valid() && PoolOk(View().pool) && SameArenas(old(View()).pool, View().pool)
      ensures View().pool.tables == old(View()).pool.tables - {id} && paused == old(paused)
      ensures id in old(View()).data
      ensures View() == RestartedSwapped(old(View()), id, View().pool)
    {
      hide PoolOk, Remove;
      swapped := Remove(swapped, id);
      PreemptByRecompute(id);
      if !split {
        place := place[id := AtWaiting];
      }
    }

    method GpuSpace(id: Id) returns (n: nat)
      requires id in mgr.blockTables
      ensures n == |OnDevice(mgr.blockTables[id], GPU)|
    {
      var blocks := mgr.GetSeqBlocksByDevice([id], GPU);
      assert blocks == OnDevice(mgr.blockTables[id], GPU);
      n := |blocks|;
    }

    /** A paused request loses its CPU blocks. */
    method DiscardPaused(id: Id)
      requires Valid() && id in paused && paused[id].Swap?
      modifies this`paused, this`data, mgr, mgr.gpu, mgr.cpu
      ensures Valid() && Spared(old(View()), View(), id)
      ensures paused == old(paused)[id := Recompute]
      ensures old(CpuRoom()) ==> CpuRoom()
    {
      hide *;
      Known();
      ShownData();
      ShownPool();
      ShownRoom();
      ghost var s, l := View(), Journaled();
      PausedKnown(s, l, id);
      RestartPaused(id);
      PausedDiscarded(s, l, View(), id);
      Established();
      ShownData();
      ShownRoom();
      if old(CpuRoom()) {
        SoundKeys(s, l);
        RoomySpared(s, View(), id);
      }
    }

    method RestartPaused(id: Id)
      requires mgr.Valid() && id in data && id in paused
      modifies this`paused, this`data, mgr, mgr.gpu, mgr.cpu
      ensures mgr.Valid() && PoolOk(View().pool) && SameArenas(old(View()).pool, View().pool)
      ensures View().pool.tables == old(View()).pool.tables - {id} && paused == old(paused)[id := Recompute]
      ensures id in old(View()).data
      ensures View() == RestartedPaused(old(View()), id, View().pool) && paused.Keys == old(paused).Keys
    {
      hide PoolOk;
      PauseByRecompute(id);
    }

    /** Frees CPU blocks by restarting swapped requests, from the back of the list, until `need` are free.
        `hazard` says that the next request to restart is one that the combined phase has already
        taken off its target list: restarting it would corrupt the schedule, and the model stops here. */
    method MakeCpuRoom(discards: seq<Id>, need: int) returns (rest: seq<Id>, hazard: bool)
      requires Valid() && Discards(View(), discards)
      modifies this`waiting, this`swapped, this`paused, this`data, this`place, mgr, mgr.gpu, mgr.cpu
      ensures Valid() && RoomMade(old(View()), View())
      ensures hazard <==> Stuck(old(View()), discards, |old(mgr.cpu.freeBlocks)|, need)
      ensures hazard ==> Stranded(View())
      ensures rest <= discards && OnlyLost(old(View()), View(), discards[|rest|..])
      ensures rest != discards ==>
        |mgr.cpu.freeBlocks| < need + |TableOf(old(mgr.blockTables), discards[|rest|])|
      ensures !hazard ==>
        (rest, |mgr.cpu.freeBlocks|) == Relieved(old(mgr.blockTables), discards, |old(mgr.cpu.freeBlocks)|, need)
      ensures !hazard ==> Discards(View(), rest)
      ensures !hazard && rest != [] ==> need <= |mgr.cpu.freeBlocks|
      ensures need <= |old(mgr.cpu.freeBlocks)| ==> View() == old(View()) && !hazard
      ensures old(CpuRoom()) ==> CpuRoom()
    {
      hide *;
      Known();
      ShownData();
      ShownPool();
      ghost var s0, c0 := View(), |mgr.cpu.freeBlocks|;
      rest, hazard := discards, false;
      RoomMadeSelf(s0, Journaled());
      UntouchedSelf(s0, discards);
      OnlyLostSelf(s0, Journaled());
      DiscardsOnce(s0, discards);
      assert discards[|discards|..] == [];
      while |mgr.cpu.freeBlocks| < need && rest != []
        invariant Valid() && RoomMade(s0, View()) && Discards(View(), rest) && Untouched(s0, View(), rest)
        invariant Stuck(s0, discards, c0, need) <==> Stuck(s0, rest, |mgr.cpu.freeBlocks|, need)
        invariant (need <= c0 ==> View() == s0) && (old(CpuRoom()) ==> CpuRoom())
        invariant rest <= discards && OnlyLost(s0, View(), discards[|rest|..])
        invariant Relieved(s0.pool.tables, discards, c0, need) ==
          Relieved(s0.pool.tables, rest, |mgr.cpu.freeBlocks|, need)
        invariant rest != discards ==> |mgr.cpu.freeBlocks| < need + |TableOf(s0.pool.tables, discards[|rest|])|
        decreases |rest|
      {
        var x := rest[|rest| - 1];
        ghost var s, l, was := View(), Journaled(), rest;
        Known();
        ShownData();
        ShownPool();
        DiscardsLast(s, l, rest);
        if x !in paused && split && Stale(place, x) {
          StuckHere(s0, s, rest, |mgr.cpu.freeBlocks|, need);
          StrandedBy(s, rest);
          return rest, true;
        }
        StuckNext(s0, s, rest, |mgr.cpu.freeBlocks|, need);
        RelievedNext(s0.pool.tables, rest, |mgr.cpu.freeBlocks|, need);
        rest := rest[..|rest| - 1];
        if x in paused {
          DiscardPaused(x);
        } else {
          DiscardSwapped(x);
        }
        ShownData();
        ShownPool();
        RoomMadeStep(s0, s, View(), x);
        DiscardsRest(s, View(), was, x);
        SparedUntouched(s0, s, View(), l, was);
        OneMoreLost(s0, s, View(), discards, |rest|);
      }
      NotStuck(s0, rest, |mgr.cpu.freeBlocks|, need);
      RelievedDone(s0.pool.tables, rest, |mgr.cpu.freeBlocks|, need);
    }

    /** Gives up a whole victim: it restarts from its first token once it runs again.
        `onRunning` says that the victim list is `running` itself. */
    method DropVictim(v: Id, onRunning: bool, ghost p: Place)
      requires Valid() && Victim(View(), v, p) && (onRunning <==> p.AtRunning?)
      requires onRunning ==> running != [] && running[|running| - 1] == v
      modifies this`waiting, this`running, this`paused, this`data, this`place, mgr, mgr.gpu, mgr.cpu
      ensures Valid() && Dropped(old(View()), View(), v, p)
      ensures running == if onRunning then old(running)[..|old(running)| - 1] else old(running)
      ensures v in old(paused) ==> paused == old(paused)[v := Recompute] && waiting == old(waiting)
      ensures v !in mgr.blockTables && v in data && data[v].Cached() == 0
      ensures v in old(mgr.blockTables)
      ensures |mgr.cpu.freeBlocks| == |old(mgr.cpu.freeBlocks)| + |OnDevice(old(mgr.blockTables)[v], CPU)|
      ensures old(CpuRoom()) ==> CpuRoom()
    {
      hide *;
      Known();
      ShownData();
      ShownPool();
      ShownRoom();
      VictimKnown(View(), Journaled(), v, p);
      RestartVictim(v, onRunning);
      VictimDropped(old(View()), Journaled(), View(), v, p);
      Established();
      ShownRoom();
      ShownData();
      ShownPool();
      DropFields(old(View()), View(), v, onRunning);
      SoundKeys(old(View()), Journaled());
      DropCounts(old(View()), View(), v, onRunning);
      if old(CpuRoom()) {
        RoomyDrop(old(View()), View(), v, onRunning);
      }
    }

    /** Frees the victim's blocks; a running victim waits again, a paused one stays paused. */
    method RestartVictim(v: Id, onRunning: bool)
      requires mgr.Valid() && v in data && (onRunning ==> running != [])
      modifies this`waiting, this`running, this`paused, this`data, this`place, mgr, mgr.gpu, mgr.cpu
      ensures mgr.Valid() && DropStep(old(View()), View(), v, onRunning)
      ensures running == if onRunning then old(running)[..|old(running)| - 1] else old(running)
    {
      hide PoolOk;
      if v !in paused {
        PreemptByRecompute(v);
        place := place[v := AtWaiting];
      } else {
        PauseByRecompute(v);
      }
      if onRunning {
        running := running[..|running| - 1];
      }
    }

    /** Puts a running request whose blocks are all on the CPU into the swapped queue.  The assertions
        are the source's own; the group swap finds nothing left to move. */
    method PreemptBySwap(v: Id)
      requires mgr.Valid() && v in data && v in mgr.blockTables && GpuPrefix(mgr.blockTables[v], 0)
      requires 0 <= data[v].Cached() && |mgr.blockTables[v]| == CeilDiv(data[v].Cached(), mgr.blockSize)
      modifies this`swapped, this`data, this`blocksToSwapOut, mgr, mgr.gpu, mgr.cpu
      ensures mgr.Valid() && mgr.blockTables == old(mgr.blockTables) && SameArenas(old(mgr.View()), mgr.View())
      ensures swapped == old(swapped) + [v] && blocksToSwapOut == old(blocksToSwapOut)
      ensures data == old(data)[v := SwappedRec(old(data)[v], |mgr.blockTables[v]|).(status := Status.Swapped)]
    {
      hide PoolOk, GroupMoved;
      assert v in mgr.blockTables;
      ghost var tables := mgr.blockTables;
      assert |mgr.blockTables[v]| == CeilDiv(data[v].Cached(), mgr.blockSize);
      var can := mgr.CanSwapOut([v], -1);
      assert can;
      var ok, mapping, allSwapped := mgr.SwapOut([v], -1);
      assert ok && allSwapped;
      NothingToMove(tables, mgr.blockTables, v, mapping);
      blocksToSwapOut := blocksToSwapOut + mapping;
      data := data[v := data[v].(status := Status.Swapped)];
      data := data[v := SwappedRec(data[v], |mgr.blockTables[v]|)];
      swapped := swapped + [v];
    }

    /** Swaps the last `num` GPU blocks of a victim out; `full` when none is left on the GPU, and
        then the victim is no longer one. */
    method SwapOutVictim(v: Id, num: nat, onRunning: bool, ghost p: Place) returns (full: bool)
      requires Valid() && Victim(View(), v, p) && (onRunning <==> p.AtRunning?)
      requires onRunning ==> running != [] && running[|running| - 1] == v
      requires v in mgr.blockTables && 1 <= num <= |OnDevice(mgr.blockTables[v], GPU)| && num <= |mgr.cpu.freeBlocks|
      modifies this`swapped, this`running, this`paused, this`data, this`place
      modifies this`blocksToSwapOut, this`now, this`clash, mgr, mgr.gpu, mgr.cpu
      ensures Valid() && Offered(old(View()), View(), v, p, num, full)
      ensures full <==> num == |OnDevice(old(mgr.blockTables)[v], GPU)|
      ensures SwappedBack(old(View()), View(), v, num) && |blocksToSwapOut| == |old(blocksToSwapOut)| + num
      ensures |mgr.cpu.freeBlocks| == |old(mgr.cpu.freeBlocks)| - num
      ensures running == if onRunning && full then old(running)[..|old(running)| - 1] else old(running)
    {
      hide PoolOk, Sound, Victim, Offered, Exclusive, GpuPrefix, OnDevice, OfferStep, RetireStep, SwappedBack;
      ghost var s, l := View(), Journaled();
      VictimReady(s, l, v, p);
      ghost var m := OfferBlocks(v, num);
      var left := GpuSpace(v);
      full := left == 0;
      ghost var s1 := View();
      OfferedFacts(s, l, s1, Journaled(), v, p, num, m);
      OfferedBack(s, l, s1, Journaled(), v, p, num, m);
      ValidPool();
      if full {
        Retire(v, onRunning);
        RetiredBack(s, s1, View(), v, num, onRunning);
      }
      VictimOffered(s, l, s1, View(), Journaled(), v, p, m, num, full);
    }

    /** Moves a victim with no GPU block left to where swapped requests go.  The assertions are the source's. */
    method Retire(v: Id, onRunning: bool)
      requires mgr.Valid() && v in data && v in mgr.blockTables && (onRunning ==> running != [])
      requires 0 <= data[v].Cached() && |mgr.blockTables[v]| == CeilDiv(data[v].Cached(), mgr.blockSize)
      requires data[v].swapStart == 0 && data[v].swapLength == |mgr.blockTables[v]| && GpuPrefix(mgr.blockTables[v], 0)
      modifies this`swapped, this`running, this`paused, this`data, this`place, this`blocksToSwapOut, mgr, mgr.gpu
      modifies mgr.cpu
      ensures mgr.Valid() && RetireStep(old(View()), View(), v, onRunning) && Journaled() == old(Journaled())
      ensures running == if onRunning then old(running)[..|old(running)| - 1] else old(running)
    {
      hide *;
      ValidPool();
      assert data[v].swapStart == 0;
      assert data[v].swapLength == CeilDiv(data[v].Cached(), mgr.blockSize);
      if v !in paused {
        RetireRunning(v, onRunning);
      } else {
        RetirePaused(v, onRunning);
      }
    }

    method RetireRunning(v: Id, onRunning: bool)
      requires mgr.Valid() && v in data && v in mgr.blockTables && (onRunning ==> running != []) && v !in paused
      requires 0 <= data[v].Cached() && |mgr.blockTables[v]| == CeilDiv(data[v].Cached(), mgr.blockSize)
      requires GpuPrefix(mgr.blockTables[v], 0)
      modifies this`swapped, this`running, this`data, this`place, this`blocksToSwapOut, mgr, mgr.gpu, mgr.cpu
      ensures mgr.Valid() && RetireStep(old(View()), View(), v, onRunning) && Journaled() == old(Journaled())
      ensures running == if onRunning then old(running)[..|old(running)| - 1] else old(running)
    {
      hide PoolOk, GpuPrefix, CeilDiv, SameArenas;
      PreemptBySwap(v);
      place := place[v := AtSwapped];
      if onRunning {
        running := running[..|running| - 1];
      }
      assert mgr.Valid() && PoolOk(mgr.View()) by { ValidPool(); }
    }

    lemma ValidPool()
      requires mgr.Valid()
      ensures PoolOk(mgr.View()) && mgr.blockSize > 0
    {
    }

    method RetirePaused(v: Id, onRunning: bool)
      requires mgr.Valid() && v in data && v in mgr.blockTables && (onRunning ==> running != []) && v in paused
      modifies this`running, this`paused, this`data
      ensures mgr.Valid() && RetireStep(old(View()), View(), v, onRunning) && Journaled() == old(Journaled())
      ensures running == if onRunning then old(running)[..|old(running)| - 1] else old(running)
    {
      hide PoolOk;
      ValidPool();
      data := data[v := SwappedRec(data[v], |mgr.blockTables[v]|)];
      paused := paused[v := Swap];
      if onRunning {
        running := running[..|running| - 1];
      }
    }

    /** Swaps blocks out from the back and adjusts the swap counters. */
    method OfferBlocks(v: Id, num: nat) returns (ghost m: map<nat, nat>)
      requires mgr.Valid() && Exclusive(mgr.blockTables) && v in mgr.blockTables && v in data
      requires 0 <= data[v].Cached() && GpuPrefix(mgr.blockTables[v], |mgr.blockTables[v]| - data[v].swapLength)
      requires num <= |mgr.blockTables[v]| - data[v].swapLength && num <= |mgr.cpu.freeBlocks|
      modifies this`data, this`blocksToSwapOut, this`now, this`clash, mgr, mgr.gpu, mgr.cpu
      ensures mgr.Valid() && v in mgr.blockTables
      ensures OfferStep(old(View()), old(Journaled()), View(), Journaled(), v, num, m)
      ensures |mgr.cpu.freeBlocks| == |old(mgr.cpu.freeBlocks)| - num
    {
      hide PoolOk, Moved, Exclusive, GpuPrefix, MoveCells, Clashes, OfferedRec, CeilDiv, LoggedOut;
      OfferedSame(data[v], num, mgr.blockSize, 0);
      ghost var t := mgr.blockTables[v];
      var ok, mapping := mgr.SwapOutFromBack(v, |t| - data[v].swapLength, num);
      assert ok;
      m := mapping;
      LogCopies(t, mgr.blockTables[v], mapping);
      data := data[v := OfferedRec(data[v], num, mgr.blockSize)];
    }

    /** The paused requests whose blocks are on the CPU.  The source sorts them by remaining call
        time; here they come in an arbitrary order. */
    method PausedBySwap() returns (l: seq<Id>)
      ensures NoDup(l) && forall x :: x in l <==> x in paused && paused[x].Swap?
    {
      l := [];
      var todo := paused.Keys;
      while todo != {}
        invariant todo <= paused.Keys && NoDup(l)
        invariant forall x :: x in l <==> x in paused && paused[x].Swap? && x !in todo
        decreases todo
      {
        var x :| x in todo;
        todo := todo - {x};
        if paused[x].Swap? {
          l := l + [x];
        }
      }
    }

    /** Takes GPU blocks from the back of a victim list until `required` are free or no victim is
        left.  `V2` restarts whole victims; `InferCept` swaps their last blocks out while the CPU has room. */
    method PassiveDiscard(required0: int, victims: seq<Id>, onRunning: bool, ghost p: Place)
      returns (rest: seq<Id>, nSwap: int, hazard: bool, ghost bySwap: seq<Id>, ghost turns: nat)
      requires Valid() && VictimList(View(), victims, p) && (onRunning <==> p.AtRunning?)
      requires onRunning ==> victims == running
      modifies this`waiting, this`swapped, this`running, this`paused, this`data, this`place
      modifies this`blocksToSwapOut, this`now, this`clash, mgr, mgr.gpu, mgr.cpu
      ensures Valid() && Kept(old(View()), View(), p) && SameArenas(old(mgr.View()), mgr.View())
      ensures running == if onRunning then rest else old(running)
      ensures p.AtPaused? ==> NoMore(old(View()), View())
      ensures |mgr.gpu.freeBlocks| >= |old(mgr.gpu.freeBlocks)|
      ensures rest <= victims
      ensures !hazard ==> ReclaimedFrom(variant, old(View()), View(), victims, required0, rest, nSwap, bySwap, turns)
      ensures |blocksToSwapOut| == |old(blocksToSwapOut)| + nSwap
      ensures variant.V2? ==> Journaled() == old(Journaled())
      ensures 0 <= nSwap && (required0 >= 0 ==> nSwap <= required0)
      ensures hazard ==> Stranded(View())
      ensures !hazard ==> VictimList(View(), rest, p)
      ensures !hazard && rest != [] ==> |mgr.gpu.freeBlocks| >= |old(mgr.gpu.freeBlocks)| + required0
      ensures !hazard && required0 > 0 && rest == victims && victims != [] ==> TooBig(old(View()), victims, required0)
      ensures variant.V2? && old(CpuRoom()) ==> CpuRoom() && !hazard
      ensures variant.V2? && p.AtPaused? && old(CpuRoom()) ==> Undisturbed(old(View()), View())
    {
      hide *;
      Known();
      ShownData();
      ShownPool();
      ghost var s0, l0 := View(), Journaled();
      var calling := PausedBySwap();
      bySwap, turns := calling, 0;
      var discards := swapped + calling;
      var required := required0;
      rest, nSwap, hazard := victims, 0, false;
      ghost var c := Reclaim(discards, victims, required0, |mgr.cpu.freeBlocks|);
      DiscardingStart(s0, l0, victims, discards, bySwap, p);
      DiscardingLists(s0, s0, victims, discards, p, 0);
      SeparateFrom(s0, l0, victims, discards, p, required0, |mgr.cpu.freeBlocks|);
      ReclaimingStart(variant, s0, c);
      CountIs(variant, s0.pool.tables, c);
      UndisturbedSelf(s0);
      while required > 0 && rest != []
        invariant Valid() && Discarding(s0, View(), rest, discards, p, required0 - required)
        invariant rest <= victims && running == if onRunning then rest else old(running)
        invariant 0 <= nSwap && (required >= 0 ==> nSwap <= required0 - required)
        invariant required <= required0 && (required0 >= 0 ==> nSwap <= required0)
        invariant variant.V2? ==> Journaled() == l0
        invariant Reclaiming(variant, s0, View(), c, Reclaim(discards, rest, required, |mgr.cpu.freeBlocks|), turns)
        invariant nSwap == SwappedBy(variant, s0.pool.tables, c, turns)
        invariant |blocksToSwapOut| == |old(blocksToSwapOut)| + nSwap
        invariant variant.V2? && old(CpuRoom()) ==> CpuRoom() && (p.AtPaused? ==> Undisturbed(s0, View()))
        invariant rest == victims && victims != [] ==>
          (required == required0 && View() == s0) || TooBig(s0, victims, required0)
        decreases |rest|, required
      {
        var n, freed, gone;
        ghost var s, d := View(), Reclaim(discards, rest, required, |mgr.cpu.freeBlocks|);
        discards, n, freed, gone, hazard := DiscardOne(required, rest, discards, onRunning, p, s0,
          required0 - required);
        if hazard {
          break;
        }
        if Undisturbed(s0, s) && Undisturbed(s, View()) { UndisturbedTrans(s0, s, View()); }
        required := required - freed;
        nSwap := nSwap + n;
        if gone {
          rest := rest[..|rest| - 1];
        }
        ghost var e := Reclaim(discards, rest, required, |mgr.cpu.freeBlocks|);
        ReclaimingNext(variant, s0, s, View(), c, d, e, turns, n);
        turns := turns + 1;
      }
      DiscardingFacts(s0, View(), rest, discards, p, required0 - required);
      ShownPool();
      if !hazard {
        ghost var d := Reclaim(discards, rest, required, |mgr.cpu.freeBlocks|);
        ReclaimingEnd(variant, s0, View(), c, d, turns, required0, nSwap, bySwap);
      }
    }

    /** One victim of `PassiveDiscard`.  The assertion is the source's "Fully preempted seqs should
        not stay in the victim group". */
    method DiscardOne(required: int, rest: seq<Id>, discards: seq<Id>, onRunning: bool,
                      ghost p: Place, ghost s0: Sys, ghost done: int)
      returns (discards': seq<Id>, nSwap: int, freed: int, gone: bool, hazard: bool)
      requires Valid() && Discarding(s0, View(), rest, discards, p, done) && rest != [] && required > 0
      requires (onRunning <==> p.AtRunning?) && (onRunning ==> rest == running)
      modifies this`waiting, this`swapped, this`running, this`paused, this`data, this`place
      modifies this`blocksToSwapOut, this`now, this`clash, mgr, mgr.gpu, mgr.cpu
      ensures Valid() && (hazard ==> Stranded(View()))
      ensures Discarding(s0, View(), if gone then rest[..|rest| - 1] else rest, discards', p, done + freed)
      ensures running == if onRunning && gone then old(running)[..|old(running)| - 1] else old(running)
      ensures if hazard then freed == nSwap == 0 && !gone else freed >= 1
      ensures nSwap == 0 || 0 <= nSwap == freed <= required
      ensures !hazard && !gone ==> freed == required && TooBig(old(View()), rest, required)
      ensures variant.V2? ==> nSwap == 0 && Journaled() == old(Journaled())
      ensures (hazard ==> !old(CpuRoom())) && (variant.V2? && old(CpuRoom()) ==> CpuRoom())
      ensures |blocksToSwapOut| == |old(blocksToSwapOut)| + nSwap
      ensures !hazard ==> ReclaimStep(variant, old(View()), View(),
        Reclaim(discards, rest, required, |old(mgr.cpu.freeBlocks)|),
        Reclaim(discards', if gone then rest[..|rest| - 1] else rest, required - freed, |mgr.cpu.freeBlocks|), nSwap)
      ensures variant.V2? && p.AtPaused? && old(CpuRoom()) ==> Undisturbed(old(View()), View())
    {
      hide *;
      Known();
      ShownPool();
      ShownRoom();
      ghost var s := View();
      discards', nSwap, freed, gone, hazard := discards, 0, 0, true, false;
      var v := rest[|rest| - 1];
      LastVictim(s0, s, Journaled(), rest, discards, p, done);
      LastApart(s, Journaled(), v, p, discards);
      var gpuSpace := GpuSpace(v);
      assert gpuSpace > 0;
      var num := if gpuSpace < required then gpuSpace else required;
      discards', hazard := RelieveCpu(v, num, gpuSpace, rest, discards, p, s0, done);
      ShownPool();
      ghost var s1 := View();
      if hazard {
        discards', gone := [], false;
        return;
      }
      nSwap, freed, gone := TakeVictim(required, gpuSpace, num, rest, discards, discards', onRunning, p, s0, done, s);
    }

    /** Takes the blocks of the last victim, once room was made on the CPU since state `s`. */
    method TakeVictim(required: int, gpuSpace: nat, num: nat, rest: seq<Id>, ghost discards0: seq<Id>,
                      ghost discards: seq<Id>, onRunning: bool, ghost p: Place, ghost s0: Sys, ghost done: int,
                      ghost s: Sys)
      returns (nSwap: nat, freed: nat, gone: bool)
      requires Valid() && Discarding(s0, View(), rest, discards, p, done) && rest != [] && required > 0
      requires Victim(View(), rest[|rest| - 1], p) && (onRunning <==> p.AtRunning?) && (onRunning ==> rest == running)
      requires var v := rest[|rest| - 1];
        && v in s.place && v !in discards0 && v in s.pool.tables && s.pool.tables.Keys <= s.place.Keys
        && v in mgr.blockTables && mgr.blockTables[v] == s.pool.tables[v]
        && gpuSpace == |OnDevice(s.pool.tables[v], GPU)| > 0
      requires num == if gpuSpace < required then gpuSpace else required
      requires discards <= discards0 && OnlyLost(s, View(), discards0[|discards|..])
      requires (discards, |mgr.cpu.freeBlocks|) == Relieved(s.pool.tables, discards0, |s.pool.cpu.free|, num)
      modifies this`waiting, this`swapped, this`running, this`paused, this`data, this`place
      modifies this`blocksToSwapOut, this`now, this`clash, mgr, mgr.gpu, mgr.cpu
      ensures Valid() && Discarding(s0, View(), if gone then rest[..|rest| - 1] else rest, discards, p, done + freed)
      ensures running == if onRunning && gone then old(running)[..|old(running)| - 1] else old(running)
      ensures freed >= 1 && (nSwap == 0 || nSwap == freed == num)
      ensures !gone ==> freed == num < gpuSpace
      ensures variant.V2? ==> nSwap == 0 && Journaled() == old(Journaled())
      ensures variant.V2? && old(CpuRoom()) ==> CpuRoom()
      ensures variant.V2? && p.AtPaused? ==> Undisturbed(old(View()), View())
      ensures |blocksToSwapOut| == |old(blocksToSwapOut)| + nSwap
      ensures ReclaimStep(variant, s, View(), Reclaim(discards0, rest, required, |s.pool.cpu.free|),
        Reclaim(discards, if gone then rest[..|rest| - 1] else rest, required - freed, |mgr.cpu.freeBlocks|), nSwap)
    {
      hide *;
      ShownPool();
      ghost var s1, v := View(), rest[|rest| - 1];
      nSwap, freed, gone := TakeBlocks(rest[|rest| - 1], gpuSpace, num, rest, discards, onRunning, p, s0, done);
      Known();
      ShownPool();
      ghost var c := Reclaim(discards0, rest, required, |s.pool.cpu.free|);
      PortionIs(s.pool.tables, c, num);
      SoundKeys(View(), Journaled());
      ReclaimedOne(variant, s, s1, View(), c, v, discards, num, gone, nSwap, freed);
    }

    /** Makes room on the CPU for `num` blocks of the victim. */
    method RelieveCpu(v: Id, num: nat, ghost gpuSpace: nat, ghost rest: seq<Id>, discards: seq<Id>, ghost p: Place,
                      ghost s0: Sys, ghost done: int)
      returns (discards': seq<Id>, hazard: bool)
      requires Valid() && Discarding(s0, View(), rest, discards, p, done) && v in rest && Victim(View(), v, p)
      requires v in mgr.blockTables && gpuSpace == |OnDevice(mgr.blockTables[v], GPU)| && num <= gpuSpace
      modifies this`waiting, this`swapped, this`paused, this`data, this`place, mgr, mgr.gpu, mgr.cpu
      ensures Valid() && (hazard ==> Stranded(View()) && !old(CpuRoom())) && (old(CpuRoom()) ==> CpuRoom())
      ensures Discarding(s0, View(), rest, if hazard then [] else discards', p, done) && Victim(View(), v, p)
      ensures v in mgr.blockTables && mgr.blockTables[v] == old(mgr.blockTables)[v]
      ensures discards' <= discards && OnlyLost(old(View()), View(), discards[|discards'|..])
      ensures !hazard ==>
        (discards', |mgr.cpu.freeBlocks|) == Relieved(old(mgr.blockTables), discards, |old(mgr.cpu.freeBlocks)|, num)
      ensures old(CpuRoom()) && p.AtPaused? ==> View() == old(View())
    {
      hide *;
      ShownPool();
      ShownRoom();
      ghost var s := View();
      DiscardingLists(s0, s, rest, discards, p, done);
      if old(CpuRoom()) && p.AtPaused? {
        VictimRoomy(s, v);
      }
      VictimSplit(s, v, p);
      discards', hazard := MakeCpuRoom(discards, num);
      ShownPool();
      StrandedSplit(View());
      RoomKeeps(s0, s, View(), rest, discards, discards', p, v, done, hazard);
    }

    /** Restarts the victim or swaps `num` of its blocks out. */
    method TakeBlocks(v: Id, gpuSpace: nat, num: nat, rest: seq<Id>, ghost discards: seq<Id>, onRunning: bool,
                      ghost p: Place, ghost s0: Sys, ghost done: int)
      returns (nSwap: nat, freed: nat, gone: bool)
      requires Valid() && Discarding(s0, View(), rest, discards, p, done) && rest != [] && rest[|rest| - 1] == v
      requires Victim(View(), v, p) && (onRunning <==> p.AtRunning?) && (onRunning ==> rest == running)
      requires v in mgr.blockTables && gpuSpace == |OnDevice(mgr.blockTables[v], GPU)| && 1 <= num <= gpuSpace
      modifies this`waiting, this`swapped, this`running, this`paused, this`data, this`place
      modifies this`blocksToSwapOut, this`now, this`clash, mgr, mgr.gpu, mgr.cpu
      ensures Valid() && Discarding(s0, View(), if gone then rest[..|rest| - 1] else rest, discards, p, done + freed)
      ensures running == if onRunning && gone then old(running)[..|old(running)| - 1] else old(running)
      ensures freed >= 1 && (nSwap == 0 || nSwap == freed == num)
      ensures !gone ==> freed == num < gpuSpace
      ensures TookBack(variant, old(View()), View(), v, num, gone, nSwap, freed)
      ensures OthersSame(old(View()), View(), v) && |blocksToSwapOut| == |old(blocksToSwapOut)| + nSwap
      ensures variant.V2? ==> nSwap == 0 && Journaled() == old(Journaled())
      ensures variant.V2? && old(CpuRoom()) ==> CpuRoom()
      ensures variant.V2? && p.AtPaused? ==> Undisturbed(old(View()), View())
    {
      hide *;
      ghost var s1, l1 := View(), Journaled();
      Known();
      ShownPool();
      if variant.V2? || |mgr.cpu.freeBlocks| < num {
        nSwap, freed, gone := 0, gpuSpace, true;
        DropVictim(v, onRunning, p);
        DroppedKeeps(s0, s1, l1, View(), rest, discards, p, v, done);
        DroppedOthers(s1, View(), v, p);
        ShownPool();
        ShownData();
        GaveAllIs(View(), v);
        TookDropped(variant, s1, View(), v, num);
        if p.AtPaused? {
          UndisturbedDropped(s1, View(), v);
        }
      } else {
        freed, nSwap := num, num;
        gone := SwapOutVictim(v, num, onRunning, p);
        OfferedKeeps(s0, s1, l1, View(), rest, discards, p, v, num, gone, done);
        OfferedOthers(s1, View(), v, p, num, gone);
        ShownPool();
        TookSwapped(variant, s1, View(), v, num, gone);
      }
    }

    /** Preempts until `newBlocks` GPU blocks are free: paused requests first, then, in the phase
        that may preempt its own kind, delayed requests, later targets, and at last request `c` itself.
        Each list is used up, from its back, before the next one is touched. */
    method MakeRoom(c: Id, newBlocks: int, selfPreempt: bool, r0: Round)
      returns (room: Room, r: Round, hazard: bool, ghost m: Effort)
      requires Valid() && At(View(), r0) && r0.cur == Some(c) && (selfPreempt ==> r0.q.QRunning?)
      modifies this`waiting, this`swapped, this`running, this`paused, this`data, this`place, this`maxSwapOutBlocks
      modifies this`blocksToSwapOut, this`now, this`clash, mgr, mgr.gpu, mgr.cpu
      ensures Valid() && (hazard ==> Stranded(View()))
      ensures variant.V2? ==> Journaled() == old(Journaled())
      ensures !hazard ==> At(View(), r) && Onward(old(View()), r0, View(), r)
      ensures !hazard ==> r == r0.(delayed := r.delayed, pre := r.pre, cur := if room.Preempted? then None else Some(c))
      ensures !hazard && !room.Preempted? ==> Carried(old(View()), View(), c)
      ensures r.pre <= r0.pre && (!hazard ==> InOrder(r0, old(running), r, running))
      ensures !hazard && room.Fits? ==> mgr.CanFulfillBlocks(newBlocks)
      ensures !hazard && room.Postponed? ==> !mgr.CanFulfillBlocks(newBlocks)
      ensures !hazard && room.Postponed? ==>
        newBlocks - |mgr.gpu.freeBlocks| > maxSwapOutBlocks || (r.pre == [] && !selfPreempt)
      ensures !hazard && room.Preempted? ==> selfPreempt && r.pre == [] && r.delayed == [] && running == []
      ensures old(mgr.CanFulfillBlocks(newBlocks)) ==> room.Fits? && r == r0 && !hazard && View() == old(View())
      ensures variant.V2? && old(CpuRoom()) ==> CpuRoom() && !hazard
      ensures variant.V2? && split && old(CpuRoom()) ==> Undisturbed(old(View()), View())
      ensures !hazard ==> m.room == room && m.s == View() && m.r == r && MadeRoom(variant, c, newBlocks, selfPreempt, m,
        old(View()), r0, old(maxSwapOutBlocks), maxSwapOutBlocks)
    {
      hide *;
      Known();
      ghost var s0, l0 := View(), Journaled();
      r, hazard := r0, false;
      MakingStart(s0, l0, r, c);
      UndisturbedSelf(s0);
      InOrderSelf(r0, running);
      ghost var steps, out0 := [], maxSwapOutBlocks;
      SqueezedNone(variant, newBlocks, s0, r0, out0);
      while !mgr.CanFulfillBlocks(newBlocks)
        invariant Valid() && Making(s0, View(), r, c)
        invariant r == r0.(delayed := r.delayed, pre := r.pre)
        invariant r.pre <= r0.pre && InOrder(r0, old(running), r, running)
        invariant old(mgr.CanFulfillBlocks(newBlocks)) ==> mgr.CanFulfillBlocks(newBlocks) && r == r0 && View() == s0
        invariant variant.V2? ==> Journaled() == l0
        invariant variant.V2? && old(CpuRoom()) ==> CpuRoom() && (split ==> Undisturbed(s0, View()))
        invariant SqueezedAll(variant, newBlocks, steps, s0, r0, out0, View(), r, maxSwapOutBlocks)
        decreases !mgr.CanFulfillBlocks(newBlocks), |r.pre|, |r.delayed|, |running|
      {
        ghost var s, r1, running1 := View(), r, running;
        var need := newBlocks - |mgr.gpu.freeBlocks|;
        Capacity(newBlocks);
        if need > maxSwapOutBlocks || (r.pre == [] && !selfPreempt) {
          MakingAt(s0, View(), r0, r, c);
          ShownPool();
          m := RoomPostponed(variant, c, newBlocks, selfPreempt, steps, s0, r0, out0, s, r, maxSwapOutBlocks);
          return Postponed, r, false, m;
        }
        MakingSplit(s0, s, r, c);
        ShownPool();
        if r.pre == [] && r.delayed == [] && running == [] {
          ghost var nSwap, bySwap, turns;
          hazard, nSwap, bySwap, turns := YieldCurrent(c, r, s0);
          YieldedAt(s0, View(), r0, r);
          InOrderYield(r0, old(running), r, running);
          ghost var e := Squeeze(s, r, maxSwapOutBlocks, nSwap, bySwap, turns);
          m := RoomPreempted(variant, c, newBlocks, selfPreempt, steps, s0, r0, out0, e, View());
          return Preempted, r.(cur := None), hazard, m;
        }
        ghost var q;
        r, hazard, q := PreemptOnce(c, need, r, s0);
        if hazard {
          return Fits, r, true, Effort(steps, q, Fits, View(), r);
        }
        SqueezedNext(variant, newBlocks, steps, s0, r0, out0, q, View(), r, maxSwapOutBlocks);
        steps := steps + [q];
        if Undisturbed(s0, s) && Undisturbed(s, View()) { UndisturbedTrans(s0, s, View()); }
        InOrderNext(r0, old(running), r1, running1, r, running);
        Capacity(newBlocks);
      }
      MakingAt(s0, View(), r0, r, c);
      room := Fits;
      Capacity(newBlocks);
      ShownPool();
      m := RoomFits(variant, c, newBlocks, selfPreempt, steps, s0, r0, out0, View(), r, maxSwapOutBlocks);
    }

    /** Takes blocks from the first of the three victim lists that is not empty. */
    method PreemptOnce(c: Id, need: int, r0: Round, ghost s0: Sys)
      returns (r: Round, hazard: bool, ghost q: Squeeze)
      requires Valid() && Making(s0, View(), r0, c) && need > 0
      requires r0.pre != [] || (r0.q.QRunning? && (r0.delayed != [] || running != []))
      modifies this`waiting, this`swapped, this`running, this`paused, this`data, this`place, this`maxSwapOutBlocks
      modifies this`blocksToSwapOut, this`now, this`clash, mgr, mgr.gpu, mgr.cpu
      ensures Valid() && (hazard ==> Stranded(View())) && (variant.V2? ==> Journaled() == old(Journaled()))
      ensures !hazard ==> Making(s0, View(), r, c) && r == r0.(delayed := r.delayed, pre := r.pre)
      ensures r.pre <= r0.pre
      ensures !hazard && |mgr.gpu.freeBlocks| < |old(mgr.gpu.freeBlocks)| + need ==>
        (if r0.pre != [] then r.pre == [] && r.delayed == r0.delayed && running == old(running)
         else r.pre == [] && r.delayed == [] && if r0.delayed != [] then running == old(running) else running == [])
      ensures !hazard ==> InOrder(r0, old(running), r, running)
      ensures variant.V2? && old(CpuRoom()) ==> CpuRoom() && !hazard
      ensures variant.V2? && r0.pre != [] && old(CpuRoom()) ==> Undisturbed(old(View()), View())
      ensures q.s == old(View()) && q.r == r0 && q.swapOut == old(maxSwapOutBlocks)
      ensures !hazard && need <= old(maxSwapOutBlocks) ==>
        SqueezedOnce(variant, need + |old(mgr.gpu.freeBlocks)|, q, View(), r, maxSwapOutBlocks)
    {
      hide *;
      Known();
      ShownPool();
      ghost var s := View();
      MakingVictims(s0, s, Journaled(), r0, c);
      var victims := if r0.pre != [] then r0.pre else if r0.delayed != [] then r0.delayed else running;
      var onRunning := r0.pre == [] && r0.delayed == [];
      ghost var p := if r0.pre != [] then AtPaused else if r0.delayed != [] then AtDelayed else AtRunning;
      var rest, n;
      ghost var bySwap, turns;
      rest, n, hazard, bySwap, turns := PassiveDiscard(need, victims, onRunning, p);
      q := Squeeze(s, r0, maxSwapOutBlocks, n, bySwap, turns);
      r := if r0.pre != [] then r0.(pre := rest) else if r0.delayed != [] then r0.(delayed := rest) else r0;
      maxSwapOutBlocks := maxSwapOutBlocks - n;
      if !hazard {
        ShownPool();
        AfterIs(r0, rest);
        MakingStep(s0, s, View(), r0, c, p, rest);
        InOrderOne(r0, old(running), r, running);
        SqueezedFrom(variant, need, q, View(), r, rest, maxSwapOutBlocks);
      }
    }

    /** No other request can be preempted, so the target in hand is. */
    method YieldCurrent(c: Id, r: Round, ghost s0: Sys)
      returns (hazard: bool, ghost nSwap: int, ghost bySwap: seq<Id>, ghost turns: nat)
      requires Valid() && Making(s0, View(), r, c) && r.q.QRunning? && r.pre == []
      modifies this`waiting, this`swapped, this`running, this`paused, this`data, this`place
      modifies this`blocksToSwapOut, this`now, this`clash, mgr, mgr.gpu, mgr.cpu
      ensures Valid() && !hazard && (variant.V2? ==> Journaled() == old(Journaled()))
      ensures Yielded(s0, View(), r) && running == old(running)
      ensures variant.V2? && old(CpuRoom()) ==> CpuRoom()
      ensures c in old(mgr.blockTables) && ReclaimedFrom(variant, old(View()), View(), [c],
        |OnDevice(old(mgr.blockTables)[c], GPU)|, [], nSwap, bySwap, turns)
    {
      hide PoolOk, Sound, Kept, VictimList, Making, Yielded, Roomy, Undisturbed, ReclaimedFrom, OnDevice;
      ghost var s := View();
      MakingVictims(s0, s, Journaled(), r, c);
      var space := GpuSpace(c);
      var rest, n;
      rest, n, hazard, bySwap, turns := PassiveDiscard(space, [c], false, AtCurrent);
      nSwap := n;
      YieldedFrom(s0, s, View(), r, c, rest);
    }

    /** Gives the planned blocks to target `c` and puts it into the batch. */
    method Admit(c: Id, r0: Round) returns (r: Round)
      requires Valid() && At(View(), r0) && r0.cur == Some(c) && c in data && Planned(data[c])
      requires mgr.CanFulfillBlocks(MemoryRequirement(data[c], mgr.blockSize))
      modifies this`data, this`place, this`now, this`blocksToSwapIn, this`maxSwapInBlocks, mgr, mgr.gpu, mgr.cpu
      ensures Valid() && At(View(), r) && Onward(old(View()), r0, View(), r)
      ensures r == r0.(scheduled := r0.scheduled + [c], tokens := r0.tokens + old(data)[c].runningInflight, cur := None)
      ensures maxSwapInBlocks == old(maxSwapInBlocks) - old(data)[c].resumeSwap
      ensures c in data && data[c] == old(data)[c].(status := Status.Running)
      ensures PutIn(old(View()), r0, c, old(data)[c], MemoryRequirement(old(data)[c], mgr.blockSize), View(), r)
      ensures old(CpuRoom()) ==> CpuRoom()
    {
      hide *;
      Known();
      ShownData();
      ShownPool();
      ShownMemory();
      ShownRoom();
      ghost var s, l := View(), Journaled();
      CurrentBrief(s, l, r0, c);
      CurrentNeed(s, c);
      Capacity(MemoryRequirement(data[c], mgr.blockSize));
      r := r0.(scheduled := r0.scheduled + [c], tokens := r0.tokens + data[c].runningInflight, cur := None);
      ghost var m := AllocateBlocks(c);
      ghost var s1, l1 := View(), Journaled();
      AllocFields(s, l, s1, l1, c, m);
      ShownData();
      ShownPool();
      Enlist(c);
      Admitted(s, l, s1, View(), l1, c, m, r0);
      PutInIs(s, r0, c, s.data[c], MemoryRequirement(s.data[c], mgr.blockSize), s1, View(), r);
      Established();
      ShownRoom();
      ShownData();
      if old(CpuRoom()) {
        RoomyBeside(s.pool, s.paused, s1.pool, c);
      }
    }

    method Enlist(c: Id)
      requires c in data
      modifies this`data, this`place, this`maxSwapInBlocks
      ensures c in old(View()).data && c in data && data[c] == old(data)[c].(status := Status.Running)
      ensures View() == old(View()).(data := old(data)[c := old(data)[c].(status := Status.Running)],
                                     place := old(place)[c := AtScheduled])
      ensures maxSwapInBlocks == old(maxSwapInBlocks) - old(data)[c].resumeSwap
    {
      data := data[c := data[c].(status := Status.Running)];
      place := place[c := AtScheduled];
      maxSwapInBlocks := maxSwapInBlocks - data[c].resumeSwap;
    }

    /** Calls the block manager.  The assertion is that it never raises "Out of memory". */
    method AllocateBlocks(c: Id) returns (ghost m: map<nat, nat>)
      requires mgr.Valid() && Exclusive(mgr.blockTables) && c in data && data[c].Workload()
      requires Layout(mgr.blockSize, data[c].Cleared(), TableOf(mgr.blockTables, c))
      requires MemoryRequirement(data[c], mgr.blockSize) <= |mgr.gpu.freeBlocks|
      modifies this`now, this`blocksToSwapIn, mgr, mgr.gpu, mgr.cpu
      ensures mgr.Valid() && AllocStep(old(View()), old(Journaled()), View(), Journaled(), c, m)
      ensures |mgr.cpu.freeBlocks| >= |old(mgr.cpu.freeBlocks)|
      ensures |mgr.gpu.freeBlocks| == |old(mgr.gpu.freeBlocks)| - MemoryRequirement(data[c], mgr.blockSize)
    {
      hide PoolOk, Moved, PendingLayout, Layout, Exclusive, MoveCells;
      ghost var t := TableOf(mgr.blockTables, c);
      var ok, mapping := mgr.Allocate(c, data[c]);
      assert ok;
      m := mapping;
      now := MoveCells(now, t, mgr.blockTables[c]);
      blocksToSwapIn := blocksToSwapIn + mapping;
    }

    /** The list that this phase pops from. */
    function Targets(q: Queue): seq<Id>
      reads this`running, this`swapped, this`waiting, this`combined
    {
      match q
      case QRunning => running
      case QSwapped => swapped
      case QWaiting => waiting
      case QCombined => combined
    }

    /** Takes the first request off the list. */
    method PopFirst(q: Queue) returns (c: Id)
      requires Targets(q) != []
      modifies this`waiting, this`running, this`swapped, this`combined, this`place
      ensures TargetsOf(old(View()), q) != [] && c == TargetsOf(old(View()), q)[0]
      ensures PopStep(old(View()), View(), c, q)
    {
      c := Targets(q)[0];
      match q {
        case QRunning => running := running[1..];
        case QSwapped => swapped := swapped[1..];
        case QWaiting => waiting := waiting[1..];
        case QCombined => combined := combined[1..];
      }
      place := place[c := AtCurrent];
    }

    method PopTarget(r0: Round) returns (c: Id, r: Round)
      requires Valid() && At(View(), r0) && r0.cur.None? && Targets(r0.q) != []
      modifies this`waiting, this`running, this`swapped, this`combined, this`place
      ensures Valid() && At(View(), r) && Onward(old(View()), r0, View(), r)
      ensures r == r0.(cur := Some(c)) && PopStep(old(View()), View(), c, r0.q)
      ensures TargetsOf(old(View()), r0.q) != [] && c == TargetsOf(old(View()), r0.q)[0]
    {
      hide PoolOk, Sound, At, Onward, PopStep, TargetsOf, Targets;
      c := PopFirst(r0.q);
      r := r0.(cur := Some(c));
      Popped(old(View()), old(Journaled()), View(), c, r0);
    }

    /** The target in hand could not be scheduled now. */
    method Delay(c: Id, r0: Round) returns (r: Round)
      requires Valid() && At(View(), r0) && r0.cur == Some(c)
      modifies this`place
      ensures Valid() && At(View(), r) && Onward(old(View()), r0, View(), r)
      ensures r == r0.(delayed := r0.delayed + [c], cur := None) && PutBack(old(View()), r0, c, View(), r)
    {
      hide PoolOk, Sound, At, Onward;
      ghost var s, l := View(), Journaled();
      CurrentBrief(s, l, r0, c);
      r := r0.(delayed := r0.delayed + [c], cur := None);
      place := place[c := AtDelayed];
      Resettled(s, l, View(), c, AtDelayed, r0);
    }

    /** The target in hand is too long for any batch: it leaves the scheduler with whatever blocks it owns. */
    method Ignore(c: Id, r0: Round) returns (r: Round)
      requires Valid() && At(View(), r0) && r0.cur == Some(c) && c in data && promptLimit < data[c].Len()
      modifies this`data, this`place
      ensures Valid() && At(View(), r) && Onward(old(View()), r0, View(), r)
      ensures r == r0.(ignored := r0.ignored + [c], cur := None)
      ensures c in old(View()).data && View() == old(View()).(place := old(place)[c := AtDone],
        data := old(data)[c := old(data)[c].(status := FinishedIgnored)])
    {
      hide PoolOk, Sound, At, Onward;
      ghost var s, l := View(), Journaled();
      CurrentBrief(s, l, r0, c);
      r := r0.(ignored := r0.ignored + [c], cur := None);
      data := data[c := data[c].(status := FinishedIgnored)];
      place := place[c := AtDone];
      Resettled(s, l, View(), c, AtDone, r0);
    }

    method Populate(c: Id, resumeSwap: int, runningInflight: int, ghost r: Round)
      requires Valid() && At(View(), r) && r.cur == Some(c) && c in data
      modifies this`data
      ensures Valid() && At(View(), r) && Onward(old(View()), r, View(), r)
      ensures data == old(data)[c := old(data)[c].Populate(0, resumeSwap, runningInflight)]
      ensures View() == old(View()).(data := data)
    {
      hide PoolOk, Sound, At, Onward;
      ghost var s, l := View(), Journaled();
      CurrentBrief(s, l, r, c);
      assert data[c].discardLength == 0;
      data := data[c := data[c].Populate(data[c].discardLength, resumeSwap, runningInflight)];
      Populated(s, l, View(), c, resumeSwap, runningInflight, r);
    }

    /** One round of `_schedule`: plans the target in hand and puts it into the batch, delays it,
        ignores it, or loses it to preemption.  `stop` is the source's `break`. */
    method ScheduleTarget(c: Id, f: Flags, r0: Round)
      returns (stop: bool, hazard: bool, r: Round, ghost m: Effort)
      requires Valid() && At(View(), r0) && r0.q == f.q && r0.cur == Some(c)
      requires r0.tokens <= batchMaxTokens && maxSwapInBlocks >= 0
      requires (r0.pre != [] ==> f.preemptIfNeed) && (f.selfPreempt ==> f.q.QRunning?)
      modifies this`waiting, this`swapped, this`running, this`paused, this`data, this`place
      modifies this`maxSwapOutBlocks, this`maxSwapInBlocks
      modifies this`blocksToSwapOut, this`blocksToSwapIn, this`now, this`clash, mgr, mgr.gpu, mgr.cpu
      ensures Valid() && (hazard ==> split)
      ensures !hazard ==> At(View(), r) && Onward(old(View()), r0, View(), r) && r.cur.None?
      ensures !hazard ==> r.tokens <= batchMaxTokens && maxSwapInBlocks >= 0 && (r.pre != [] ==> f.preemptIfNeed)
      ensures variant.V2? ==> blocksToSwapOut == old(blocksToSwapOut) && clash == old(clash)
      ensures !hazard && stop ==> PutOff(r0, r, c)
      ensures !hazard ==> Judged(variant, f, old(View()), r0, c, old(LimitsNow()), m, View(), r, LimitsNow(), stop)
      ensures variant.V2? && old(CpuRoom()) ==> CpuRoom() && !hazard
    {
      hide *;
      Known();
      ShownData();
      ghost var s, lim := View(), LimitsNow();
      LimitsAre();
      ShownMemory();
      CurrentBrief(s, Journaled(), r0, c);
      PlanFacts(data[c], maxSwapInBlocks, batchMaxTokens - r0.tokens);
      if data[c].Len() > promptLimit {
        r := Ignore(c, r0);
        m := JudgedTooLong(variant, f, s, r0, c, lim, View(), r);
        return false, false, r, m;
      }
      if 0 + 1 > f.maxSequences {
        r := Delay(c, r0);
        PutOffIs(r0, r, c);
        m := JudgedFull(variant, f, s, r0, c, lim, View(), r);
        return true, false, r, m;
      }
      var nSwap := SwapPlan(data[c], maxSwapInBlocks);
      var nInflight := TokenPlan(data[c], maxSwapInBlocks, batchMaxTokens - r0.tokens);
      if nInflight <= 0 && nSwap <= 0 {
        r := Delay(c, r0);
        PutOffIs(r0, r, c);
        m := JudgedIdle(variant, f, s, r0, c, lim, View(), r);
        return f.stopIfBatchLimit, false, r, m;
      }
      stop, hazard, r, m := TryTarget(c, f, nSwap, nInflight, r0);
      if !hazard { JudgedTried(variant, f, s, r0, c, lim, m, View(), r, LimitsNow(), stop); }
    }

    /** Plans `nSwap` blocks to swap in and `nInflight` tokens to forward, and finds the blocks for them. */
    method TryTarget(c: Id, f: Flags, nSwap: int, nInflight: int, r0: Round)
      returns (stop: bool, hazard: bool, r: Round, ghost m: Effort)
      requires Valid() && At(View(), r0) && r0.q == f.q && r0.cur == Some(c) && c in data
      requires 0 <= nSwap <= maxSwapInBlocks && r0.tokens + nInflight <= batchMaxTokens && r0.tokens <= batchMaxTokens
      requires Planned(data[c].Populate(0, nSwap, nInflight))
      requires (r0.pre != [] ==> f.preemptIfNeed) && (f.selfPreempt ==> f.q.QRunning?)
      modifies this`waiting, this`swapped, this`running, this`paused, this`data, this`place
      modifies this`maxSwapOutBlocks, this`maxSwapInBlocks
      modifies this`blocksToSwapOut, this`blocksToSwapIn, this`now, this`clash, mgr, mgr.gpu, mgr.cpu
      ensures Valid() && (hazard ==> split)
      ensures !hazard ==> At(View(), r) && Onward(old(View()), r0, View(), r) && r.cur.None?
      ensures !hazard ==> r.tokens <= batchMaxTokens && maxSwapInBlocks >= 0 && (r.pre != [] ==> f.preemptIfNeed)
      ensures variant.V2? ==> blocksToSwapOut == old(blocksToSwapOut) && clash == old(clash)
      ensures !hazard && stop ==> PutOff(r0, r, c)
      ensures variant.V2? && old(CpuRoom()) ==> CpuRoom() && !hazard
      ensures Need(old(View()), c, nSwap, nInflight) <= |old(mgr.gpu.freeBlocks)| ==> !hazard
      ensures !hazard ==>
        Tried(variant, f, old(View()), r0, c, nSwap, nInflight, old(LimitsNow()), m, View(), r, LimitsNow(), stop)
    {
      hide *;
      Known();
      ghost var s0, left0 := View(), LimitsNow();
      LimitsAre();
      CurrentBrief(s0, Journaled(), r0, c);
      ShownData();
      ShownPool();
      ShownMemory();
      ShownPending();
      Populate(c, nSwap, nInflight, r0);
      ShownData();
      ghost var s1 := View();
      ShownMemory();
      ShownPending();
      NeedIs(s0, s1, c, nSwap, nInflight);
      var newBlocks := mgr.GetMemoryRequirement(data[c]);
      if MustWait(|mgr.gpu.freeBlocks|, f, newBlocks, r0.pre, maxSwapOutBlocks) {
        Waits(|mgr.gpu.freeBlocks|, f, newBlocks, r0.pre, maxSwapOutBlocks);
        r := Delay(c, r0);
        PutOffIs(r0, r, c);
        OnwardTrans(s0, r0, s1, r0, View(), r);
        m := TriedLater(variant, f, s0, r0, c, nSwap, nInflight, LimitsNow(), s1, View(), r);
        return true, false, r, m;
      }
      hazard, r, m := FindRoom(c, data[c], newBlocks, f.selfPreempt, r0);
      stop := false;
      if !hazard {
        OnwardTrans(s0, r0, s1, r0, View(), r);
        LimitsAre();
        TriedNow(variant, f, s0, r0, c, nSwap, nInflight, left0, m, s1, View(), r, LimitsNow());
      }
    }

    /** Makes room for the planned target in hand and settles it.  `hazard` also says that the target
        itself was restarted and would then be run without any work or block. */
    method FindRoom(c: Id, planned: SeqRec, newBlocks: int, selfPreempt: bool, r0: Round)
      returns (hazard: bool, r: Round, ghost m: Effort)
      requires Valid() && At(View(), r0) && r0.cur == Some(c) && (selfPreempt ==> r0.q.QRunning?)
      requires c in data && data[c] == planned && Planned(planned)
      requires r0.tokens + planned.runningInflight <= batchMaxTokens
      requires planned.resumeSwap <= maxSwapInBlocks && r0.tokens <= batchMaxTokens && maxSwapInBlocks >= 0
      requires planned.Sane() && planned.Workload() && newBlocks == MemoryRequirement(planned, mgr.blockSize)
      modifies this`waiting, this`swapped, this`running, this`paused, this`data, this`place
      modifies this`maxSwapOutBlocks, this`maxSwapInBlocks
      modifies this`blocksToSwapOut, this`blocksToSwapIn, this`now, this`clash, mgr, mgr.gpu, mgr.cpu
      ensures Valid() && (hazard ==> split)
      ensures hazard ==>
        Stranded(View()) || (c in data && data[c] == planned.Restarted().(status := Status.Waiting))
      ensures !hazard ==> At(View(), r) && Onward(old(View()), r0, View(), r) && r.cur.None? && r.pre <= r0.pre
      ensures !hazard ==> r.tokens <= batchMaxTokens && maxSwapInBlocks >= 0
      ensures variant.V2? ==> blocksToSwapOut == old(blocksToSwapOut) && clash == old(clash)
      ensures !hazard ==> Took(r0, r, c, planned, data) || Waited(r0, r, c) || Lost(r0, r, running, selfPreempt)
      ensures newBlocks <= |old(mgr.gpu.freeBlocks)| ==> !hazard && Took(r0, r, c, planned, data)
      ensures !hazard ==> MadeRoom(variant, c, newBlocks, selfPreempt, m, old(View()), r0, old(maxSwapOutBlocks),
        maxSwapOutBlocks)
      ensures !hazard ==> SettledAs(c, planned, newBlocks, m, View(), r, old(maxSwapInBlocks), maxSwapInBlocks)
      ensures variant.V2? && old(CpuRoom()) ==> CpuRoom() && !hazard
    {
      hide *;
      Known();
      ghost var s1 := View();
      CurrentBrief(s1, Journaled(), r0, c);
      ShownData();
      ShownPool();
      ShownPending();
      Capacity(newBlocks);
      var room;
      room, r, hazard, m := MakeRoom(c, newBlocks, selfPreempt, r0);
      ghost var s2 := View();
      var r2 := r;
      ShownPending();
      ShownPool();
      StrandedSplit(s2);
      if !hazard {
        ShownData();
        if !room.Preempted? {
          CarriedRec(s1, s2, c);
        }
        if Undisturbed(s1, s2) { UndisturbedRec(s1, s2, c); }
        if room.Fits? && data[c] != planned {
          return true, r, m;
        }
        r := SettlePlanned(c, planned, room, selfPreempt, r0, r2, s1, m, newBlocks);
      }
    }

    /** Settles the target in hand, `r2` being the local lists once room was made and `r0` before. */
    method SettlePlanned(c: Id, planned: SeqRec, room: Room, selfPreempt: bool, r0: Round, r2: Round, ghost s1: Sys,
                         ghost m: Effort, newBlocks: int)
      returns (r: Round)
      requires m.room == room && m.s == View() && m.r == r2
      requires Valid() && At(View(), r2) && Onward(s1, r0, View(), r2)
      requires r2 == r0.(delayed := r2.delayed, pre := r2.pre, cur := if room.Preempted? then None else Some(c))
      requires Planned(planned) && r0.tokens + planned.runningInflight <= batchMaxTokens
      requires planned.resumeSwap <= maxSwapInBlocks && r0.tokens <= batchMaxTokens && maxSwapInBlocks >= 0
      requires planned.Sane() && planned.Workload()
      requires room.Fits? ==> c in data && data[c] == planned
      requires newBlocks == MemoryRequirement(planned, mgr.blockSize)
      requires room.Fits? ==> mgr.CanFulfillBlocks(newBlocks)
      requires room.Preempted? ==> selfPreempt && r2.pre == [] && r2.delayed == [] && running == []
      modifies this`data, this`place, this`now, this`blocksToSwapIn, this`maxSwapInBlocks, mgr, mgr.gpu, mgr.cpu
      ensures Valid() && At(View(), r) && Onward(s1, r0, View(), r)
      ensures r.cur.None? && r.pre == r2.pre && r.tokens <= batchMaxTokens && maxSwapInBlocks >= 0
      ensures Took(r0, r, c, planned, data) || Waited(r0, r, c) || Lost(r0, r, running, selfPreempt)
      ensures room.Fits? ==> Took(r0, r, c, planned, data)
      ensures old(CpuRoom()) ==> CpuRoom()
      ensures SettledAs(c, planned, newBlocks, m, View(), r, old(maxSwapInBlocks), maxSwapInBlocks)
    {
      hide *;
      ghost var s2 := View();
      r := Settle(c, room, r2);
      SettledFrom(c, planned, newBlocks, m, View(), r, old(maxSwapInBlocks), maxSwapInBlocks);
      SettledSince(r0, r2, r, c, planned, data);
      if room.Preempted? { LostOne(r0, r, running, selfPreempt); }
      OnwardTrans(s1, r0, s2, r2, View(), r);
    }

    /** Schedules the target that room was made for, or delays it, or finds it preempted. */
    method Settle(c: Id, room: Room, r0: Round) returns (r: Round)
      requires Valid() && At(View(), r0) && (if room.Preempted? then r0.cur.None? else r0.cur == Some(c))
      requires room.Fits? ==> c in data && Planned(data[c]) && r0.tokens + data[c].runningInflight <= batchMaxTokens
      requires room.Fits? ==> data[c].resumeSwap <= maxSwapInBlocks
      requires room.Fits? ==> mgr.CanFulfillBlocks(MemoryRequirement(data[c], mgr.blockSize))
      requires r0.tokens <= batchMaxTokens && maxSwapInBlocks >= 0
      modifies this`data, this`place, this`now, this`blocksToSwapIn, this`maxSwapInBlocks, mgr, mgr.gpu, mgr.cpu
      ensures Valid() && At(View(), r) && Onward(old(View()), r0, View(), r)
      ensures r.cur.None? && r.pre == r0.pre
      ensures r.tokens <= batchMaxTokens && maxSwapInBlocks >= 0
      ensures match room
        case Fits => c in old(data) && Took(r0, r, c, old(data)[c], data) &&
          PutIn(old(View()), r0, c, old(data)[c], MemoryRequirement(old(data)[c], mgr.blockSize), View(), r)
        case Postponed => Waited(r0, r, c) && PutBack(old(View()), r0, c, View(), r)
        case Preempted => r == r0 && View() == old(View())
      ensures room.Fits? && c in old(data) ==> maxSwapInBlocks == old(maxSwapInBlocks) - old(data)[c].resumeSwap
      ensures !room.Fits? ==> maxSwapInBlocks == old(maxSwapInBlocks)
      ensures running == old(running) && (old(CpuRoom()) ==> CpuRoom())
    {
      hide *;
      Known();
      r := r0;
      OnwardSelf(View(), Journaled(), r);
      match room {
        case Preempted =>
        case Postponed => r := Delay(c, r0); PutOffIs(r0, r, c);
        case Fits => ghost var d := data[c]; r := Admit(c, r0); TookOne(r0, r, c, d, data);
      }
    }

    /** `_schedule`: offers every target of one list the tokens, swaps and blocks that are left.
        The loop ends although making room may move requests into the list that it iterates over. */
    method Schedule(f: Flags, pre: seq<Id>) returns (r: Round, hazard: bool, ghost call: Call)
      requires Valid() && At(View(), Opening(f.q, pre)) && batchMaxTokens >= 0 && maxSwapInBlocks >= 0
      requires (pre != [] ==> f.preemptIfNeed) && (f.selfPreempt ==> f.q.QRunning?)
      modifies this`waiting, this`swapped, this`running, this`combined, this`paused, this`data, this`place
      modifies this`maxSwapOutBlocks, this`maxSwapInBlocks, this`batchMaxTokens
      modifies this`blocksToSwapOut, this`blocksToSwapIn, this`now, this`clash, mgr, mgr.gpu, mgr.cpu
      ensures Valid() && (hazard ==> split)
      ensures !hazard ==> At(View(), r) && Onward(old(View()), Opening(f.q, pre), View(), r) && r.cur.None?
      ensures !hazard ==> forall x :: x in r.delayed ==> x in data && data[x].Idle()
      ensures !hazard ==>
        batchMaxTokens + r.tokens == old(batchMaxTokens) && batchMaxTokens >= 0 && maxSwapInBlocks >= 0
      ensures !hazard ==> (r.pre != [] ==> f.preemptIfNeed)
      ensures !hazard && Targets(f.q) != [] ==> r.delayed != []
      ensures variant.V2? ==> blocksToSwapOut == old(blocksToSwapOut) && clash == old(clash)
      ensures variant.V2? && old(CpuRoom()) ==> CpuRoom() && !hazard
      ensures !hazard ==>
        Called(variant, f, pre, call, old(View()), old(LimitsNow()), View(), r, LimitsNow())
    {
      hide *;
      Known();
      ghost var s0 := View();
      r, hazard := Opening(f.q, pre), false;
      OpeningFields(f.q, pre);
      OnwardSelf(s0, Journaled(), r);
      var stop := false;
      ghost var lim0, turns := LimitsNow(), [];
      call := Call([], s0, lim0, false);
      LimitsAre();
      TrailNone(variant, f, s0, r, lim0);
      ShownTargets(f.q);
      while Targets(f.q) != [] && !stop
        invariant Trail(variant, f, turns, s0, Opening(f.q, pre), lim0, View(), r, LimitsNow(), stop)
        invariant Valid() && At(View(), r) && r.cur.None? && r.q == f.q && Onward(s0, Opening(f.q, pre), View(), r)
        invariant r.tokens <= batchMaxTokens && maxSwapInBlocks >= 0 && (r.pre != [] ==> f.preemptIfNeed)
        invariant variant.V2? ==> blocksToSwapOut == old(blocksToSwapOut) && clash == old(clash)
        invariant batchMaxTokens == old(batchMaxTokens) && (stop ==> r.delayed != [])
        invariant variant.V2? && old(CpuRoom()) ==> CpuRoom()
        decreases Left(View(), f.q)
      {
        ghost var s1, r1, lim := View(), r, LimitsNow();
        ShownTargets(f.q);
        LimitsAre();
        var c;
        c, r := PopTarget(r);
        ghost var s2, r2 := View(), r;
        PoppedLeft(s1, s2, c, f.q);
        OnwardTrans(s0, Opening(f.q, pre), s1, r1, s2, r2);
        ghost var m;
        stop, hazard, r, m := ScheduleTarget(c, f, r);
        if hazard {
          return;
        }
        PutOffIs(r2, r, c);
        LimitsAre();
        ghost var t := Turn(s1, r1, lim, s2, c, m);
        TurnedIs(variant, f, t, View(), r2, r, LimitsNow(), stop);
        TrailNext(variant, f, turns, s0, Opening(f.q, pre), lim0, t, View(), r, LimitsNow(), stop);
        turns := turns + [t];
        OnwardLeft(s2, r2, View(), r);
        OnwardTrans(s0, Opening(f.q, pre), s2, r2, View(), r);
      }
      ghost var s3 := View();
      LimitsAre();
      ShownTargets(f.q);
      call := Call(turns, s3, LimitsNow(), stop);
      CloseRound(r);
      LimitsAre();
      CalledIs(variant, f, pre, call, s0, lim0, View(), r, LimitsNow());
      OnwardTrans(s0, Opening(f.q, pre), s3, r, View(), r);
    }

    /** Takes the batched tokens off the budget and clears what was planned for delayed targets. */
    method CloseRound(r: Round)
      requires Valid() && At(View(), r) && r.cur.None? && r.tokens <= batchMaxTokens
      modifies this`data, this`batchMaxTokens
      ensures Valid() && At(View(), r) && Onward(old(View()), r, View(), r)
      ensures forall x :: x in r.delayed ==> x in data && data[x].Idle()
      ensures batchMaxTokens + r.tokens == old(batchMaxTokens) && DelayedCleared(old(View()), View(), r.delayed)
    {
      hide *;
      ghost var s0 := View();
      DelayedNone(s0);
      assert r.delayed[..0] == [];
      batchMaxTokens := batchMaxTokens - r.tokens;
      Known();
      OnwardSelf(s0, Journaled(), r);
      var i := 0;
      while i < |r.delayed|
        invariant i <= |r.delayed|
        invariant Valid() && At(View(), r) && Onward(s0, r, View(), r)
        invariant batchMaxTokens + r.tokens == old(batchMaxTokens) && DelayedCleared(s0, View(), r.delayed[..i])
        invariant forall x :: x in r.delayed[..i] ==> x in data && data[x].Idle()
      {
        ghost var s := View();
        var x := r.delayed[i];
        ClearWorkload(x, r);
        DelayedNext(s0, s, View(), r.delayed[..i], x);
        OnwardTrans(s0, r, s, r, View(), r);
        assert r.delayed[..i + 1] == r.delayed[..i] + [x];
        i := i + 1;
      }
      assert r.delayed[..i] == r.delayed;
    }

    method ClearWorkload(x: Id, ghost r: Round)
      requires Valid() && At(View(), r) && r.cur.None? && x in r.delayed
      modifies this`data
      ensures Valid() && At(View(), r) && Onward(old(View()), r, View(), r)
      ensures x in old(data) && data == old(data)[x := old(data)[x].Cleared()] && data[x].Idle()
      ensures x in old(View()).data
      ensures View() == old(View()).(data := old(View()).data[x := old(View()).data[x].Cleared()])
    {
      hide PoolOk, Sound, At, Onward;
      ghost var s, l := View(), Journaled();
      DelayedKnown(s, l, x, r);
      data := data[x := data[x].Cleared()];
      WorkloadCleared(s, l, View(), x, r);
    }

    // ---- One iteration

    /** When no request waits, the first swapped one by priority gives its CPU blocks up. */
    method ActiveDiscard(priority: Id -> real)
      requires Valid() && Between(View(), [], [])
      modifies this`waiting, this`running, this`swapped, this`data, this`place, mgr, mgr.gpu, mgr.cpu
      ensures Valid() && Between(View(), [], []) && Passed(old(View()), View(), [])
      ensures running == old(running) && (old(CpuRoom()) ==> CpuRoom())
      ensures if old(waiting) == [] && old(swapped) != []
              then waiting + swapped == SortedBy(old(swapped), priority) && |waiting| == 1
              else View() == old(View())
      ensures FirstDiscarded(old(View()), View(), priority)
      ensures Anchored(old(View()), old(Journaled())) && !Hasty(old(View()), old(Journaled()), priority) ==>
        Anchored(View(), Journaled())
    {
      hide *;
      Known();
      ShownData();
      ShownPool();
      ghost var s0, l := View(), Journaled();
      PassedSelf(s0);
      NothingDiscarded(s0, priority);
      if waiting == [] {
        if swapped != [] {
          SortQueue(QSwapped, priority, [], []);
          ghost var s := View();
          Known();
          ShownData();
          ShownPool();
          SortedFirst(old(swapped), priority);
          UnsplitBetween(View(), [], []);
          ShownPool();
          var victim := swapped[0];
          UnsplitBetween(s0, [], []);
          SortedIs(s0, s, priority);
          DiscardSwapped(victim);
          FirstDiscardedIs(s0, s, View(), priority);
          SparedBetween(s, View(), victim);
          PassedThen(s0, s, View());
          ShownData();
          if Anchored(s0, l) && !Hasty(s0, l, priority) {
            AnchoredDiscard(s0, l, s, View(), priority);
          }
        }
      }
    }

    /** Sorts one of the scheduler's lists by priority. */
    method SortQueue(q: Queue, priority: Id -> real, ghost pre: seq<Id>, ghost batch: seq<Id>)
      requires Valid() && Between(View(), pre, batch) && !q.QCombined?
      modifies this`waiting, this`running, this`swapped
      ensures Valid() && Between(View(), pre, batch) && Passed(old(View()), View(), [])
      ensures View() == Reordered(old(View()), q, SortedBy(TargetsOf(old(View()), q), priority))
      ensures running == if q.QRunning? then SortedBy(old(running), priority) else old(running)
      ensures swapped == if q.QSwapped? then SortedBy(old(swapped), priority) else old(swapped)
      ensures waiting == if q.QWaiting? then SortedBy(old(waiting), priority) else old(waiting)
    {
      hide PoolOk, Sound, Between, Passed, SortedBy;
      ghost var s, l := View(), Journaled();
      var t := SortedBy(Targets(q), priority);
      SortedPermutes(Targets(q), priority);
      match q {
        case QRunning => running := t;
        case QSwapped => swapped := t;
        case QWaiting => waiting := t;
      }
      ReorderedSound(s, l, q, t, pre, batch);
    }

    /** Swaps every GPU block of one request out if the CPU has room for all of them. */
    method SwapOutBlocks(v: Id) returns (done: bool, ghost m: map<nat, nat>)
      requires mgr.Valid() && Exclusive(mgr.blockTables) && v in mgr.blockTables
      modifies this`blocksToSwapOut, this`now, this`clash, mgr, mgr.gpu, mgr.cpu
      ensures mgr.Valid()
      ensures done <==> |OnDevice(old(mgr.blockTables)[v], GPU)| <= |old(mgr.cpu.freeBlocks)|
      ensures !done ==> View() == old(View()) && Journaled() == old(Journaled())
      ensures done ==> |mgr.cpu.freeBlocks| == |old(mgr.cpu.freeBlocks)| - |OnDevice(old(mgr.blockTables)[v], GPU)|
      ensures done ==> OutStep(old(View()), old(Journaled()), View(), Journaled(), v, m)
    {
      hide PoolOk, GroupMoved, Moved, Exclusive, GpuPrefix, MoveCells, Clashes, OnDevice, GroupBlocks, LoggedOut;
      hide NoneInGroup;
      ghost var p := mgr.View();
      done := mgr.CanSwapOut([v], -1);
      m := map[];
      GroupBlocksOne(p.tables, v, GPU);
      if done {
        var ok, mapping, allSwapped := mgr.SwapOut([v], -1);
        assert ok && allSwapped;
        m := mapping;
        GroupOfOne(p, mgr.View(), v, m);
        GroupOfOneCounts(p, mgr.View(), v, m);
        LogCopies(p.tables[v], mgr.blockTables[v], mapping);
      }
    }

    /** Notes copies to the CPU. */
    method LogCopies(ghost t: Table, ghost u: Table, mapping: map<nat, nat>)
      modifies this`blocksToSwapOut, this`now, this`clash
      ensures Journaled() == LoggedOut(old(Journaled()), t, u, mapping)
    {
      clash := clash || Clashes(Journaled(), mapping);
      now := MoveCells(now, t, u);
      blocksToSwapOut := blocksToSwapOut + mapping;
    }

    /** Swaps a preserved paused request out completely, if the CPU has room for it. */
    method ParkVictim(v: Id)
      requires Valid() && Victim(View(), v, AtPaused)
      modifies this`data, this`paused, this`blocksToSwapOut, this`now, this`clash, mgr, mgr.gpu, mgr.cpu
      ensures Valid() && Kept(old(View()), View(), AtPaused) && OthersSame(old(View()), View(), v)
      ensures SameArenas(old(mgr.View()), mgr.View())
      ensures Anchored(old(View()), old(Journaled())) ==> Anchored(View(), Journaled()) && clash == old(clash)
      ensures v in old(mgr.blockTables)
      ensures var gpu, room := |OnDevice(old(mgr.blockTables)[v], GPU)|, |old(mgr.cpu.freeBlocks)|;
        && paused == (if gpu <= room then old(paused)[v := Swap] else old(paused))
        && |mgr.cpu.freeBlocks| == if gpu <= room then room - gpu else room
      ensures old(CpuRoom()) ==> CpuRoom()
    {
      hide *;
      Known();
      ShownData();
      ShownPool();
      ShownRoom();
      ShownPending();
      ghost var s, l := View(), Journaled();
      VictimReady(s, l, v, AtPaused);
      SoundKeys(s, l);
      ghost var m;
      var done;
      done, m := SwapOutBlocks(v);
      ghost var s1, l1 := View(), Journaled();
      ShownData();
      ShownPool();
      if done {
        OutStepFields(s, l, s1, l1, v, m);
        VictimKnown(s, l, v, AtPaused);
        if old(CpuRoom()) {
          PausedRest(s, l, v);
          VictimBrief(s, v, AtPaused);
          RoomyParked(s.pool, s.paused, s1.pool, v);
        }
        MarkSwapped(v);
        ParkPaused(s, l, s1, l1, View(), v, m);
      } else {
        VictimBrief(s, v, AtPaused);
        NothingStep(s, l, v);
      }
      Established();
      ShownRoom();
      ShownPending();
      ShownData();
    }

    method MarkSwapped(v: Id)
      requires v in data && v in mgr.blockTables
      modifies this`data, this`paused
      ensures v in old(View()).data && v in old(View()).pool.tables
      ensures View() == old(View()).(data := old(data)[v := SwappedRec(old(data)[v], |mgr.blockTables[v]|)],
        paused := old(paused)[v := Swap])
    {
      data := data[v := SwappedRec(data[v], |mgr.blockTables[v]|)];
      paused := paused[v := Swap];
    }

    /** The candidates, and the greatest waste among them. */
    method Candidates(estimate: Id -> Estimate) returns (candidates: set<Id>, maxWaste: real)
      ensures forall x :: x in candidates <==> x in paused && Candidate(variant, paused[x], estimate(x))
      ensures forall x :: x in candidates ==> estimate(x).waste <= maxWaste
      ensures maxWaste >= -1.0
      ensures maxWaste == -1.0 || exists x :: x in candidates && estimate(x).waste == maxWaste
    {
      candidates, maxWaste := {}, -1.0;
      var todo := paused.Keys;
      while todo != {}
        invariant todo <= paused.Keys
        invariant forall x :: x in candidates <==>
          x in paused && x !in todo && Candidate(variant, paused[x], estimate(x))
        invariant forall x :: x in candidates ==> estimate(x).waste <= maxWaste
        invariant maxWaste >= -1.0
        invariant maxWaste == -1.0 || exists x :: x in candidates && estimate(x).waste == maxWaste
        decreases todo
      {
        var x :| x in todo;
        todo := todo - {x};
        if Candidate(variant, paused[x], estimate(x)) {
          candidates := candidates + {x};
          if maxWaste < estimate(x).waste {
            maxWaste := estimate(x).waste;
          }
        }
      }
    }

    /** Gives up every candidate that wastes less than the worst one, by its strategy.  The worst ones become
        the preemption targets of this iteration.  `order` is the order in which the others are given up. */
    method ChooseVictims(estimate: Id -> Estimate) returns (pre: seq<Id>, ghost order: seq<Id>)
      requires Valid() && Between(View(), [], [])
      modifies this`waiting, this`running, this`paused, this`data, this`place
      modifies this`blocksToSwapOut, this`now, this`clash, mgr, mgr.gpu, mgr.cpu
      ensures Valid() && Between(View(), pre, []) && Passed(old(View()), View(), [])
      ensures variant.InferCept? ==> Journaled() == old(Journaled())
      ensures variant.V2? && Anchored(old(View()), old(Journaled())) ==>
        Anchored(View(), Journaled()) && clash == old(clash)
      ensures forall x :: x in pre <==> x in old(paused) && Worst(variant, old(paused), estimate, x)
      ensures forall x :: x in order <==>
        x in old(paused) && Candidate(variant, old(paused)[x], estimate(x)) && x !in pre
      ensures NoDup(order) && paused.Keys == old(paused).Keys
      ensures forall x :: x in paused && x !in order ==> paused[x] == old(paused)[x]
      ensures Fates(variant, old(mgr.blockTables), estimate, order, |old(mgr.cpu.freeBlocks)|, paused)
      ensures |mgr.cpu.freeBlocks| ==
        RoomLeft(variant, old(mgr.blockTables), estimate, order, |old(mgr.cpu.freeBlocks)|)
      ensures GaveUp(variant, estimate, old(View()), View(), pre, order)
      ensures old(CpuRoom()) ==> CpuRoom()
    {
      hide *;
      ShownData();
      ShownPool();
      ghost var s := View();
      var candidates, maxWaste := Candidates(estimate);
      CandidateModes(variant, paused, estimate, candidates);
      forall x ensures Worst(variant, paused, estimate, x) <==> x in candidates && estimate(x).waste >= maxWaste {
        WorstReach(variant, paused, estimate, candidates, maxWaste, x);
      }
      pre, order := GiveUpCandidates(estimate, candidates, maxWaste);
      ShownData();
      ShownPool();
      GaveUpFrom(variant, estimate, s, View(), pre, order);
    }

    method GiveUpCandidates(estimate: Id -> Estimate, candidates: set<Id>, maxWaste: real)
      returns (pre: seq<Id>, ghost order: seq<Id>)
      requires Valid() && Between(View(), [], [])
      requires forall x :: x in candidates ==> x in paused && paused[x].Preserve?
      modifies this`waiting, this`running, this`paused, this`data, this`place
      modifies this`blocksToSwapOut, this`now, this`clash, mgr, mgr.gpu, mgr.cpu
      ensures Valid() && Between(View(), pre, []) && Passed(old(View()), View(), [])
      ensures variant.InferCept? ==> Journaled() == old(Journaled())
      ensures variant.V2? && Anchored(old(View()), old(Journaled())) ==>
        Anchored(View(), Journaled()) && clash == old(clash)
      ensures forall x :: x in pre <==> x in candidates && estimate(x).waste >= maxWaste
      ensures forall x :: x in order <==> x in candidates && x !in pre
      ensures NoDup(order) && paused.Keys == old(paused).Keys
      ensures forall x :: x in paused && x !in order ==> paused[x] == old(paused)[x]
      ensures Fates(variant, old(mgr.blockTables), estimate, order, |old(mgr.cpu.freeBlocks)|, paused)
      ensures |mgr.cpu.freeBlocks| ==
        RoomLeft(variant, old(mgr.blockTables), estimate, order, |old(mgr.cpu.freeBlocks)|)
      ensures old(CpuRoom()) ==> CpuRoom()
      ensures running == old(running) && waiting == old(waiting) && (order == [] ==> View() == old(View()))
    {
      hide *;
      Known();
      ShownData();
      ghost var s0, l0, tables, room := View(), Journaled(), mgr.blockTables, |mgr.cpu.freeBlocks|;
      PreservedVictims(s0, l0, candidates);
      PassedSelf(s0);
      pre, order := [], [];
      var left := candidates;
      FatesStart(variant, tables, estimate, room, paused);
      SameTablesSelf(tables, left);
      while left != {}
        invariant Valid() && Between(View(), pre, []) && Passed(s0, View(), []) && left <= candidates
        invariant forall x :: x in left ==> Victim(View(), x, AtPaused)
        invariant forall x :: x in pre <==> x in candidates && x !in left && estimate(x).waste >= maxWaste
        invariant forall x :: x in order <==> x in candidates && x !in left && x !in pre
        invariant NoDup(order) && paused.Keys == old(paused).Keys
        invariant variant.InferCept? ==> Journaled() == l0
        invariant variant.V2? && Anchored(s0, l0) ==> Anchored(View(), Journaled()) && clash == old(clash)
        invariant forall x :: x in paused && x !in order ==> paused[x] == old(paused)[x]
        invariant Fates(variant, tables, estimate, order, room, paused) && SameTables(tables, mgr.blockTables, left)
        invariant |mgr.cpu.freeBlocks| == RoomLeft(variant, tables, estimate, order, room)
        invariant old(CpuRoom()) ==> CpuRoom()
        invariant running == old(running) && waiting == old(waiting) && (order == [] ==> View() == s0)
        decreases left
      {
        var x :| x in left;
        assert left == left - {x} + {x};
        left := left - {x};
        ghost var s := View();
        ShownData();
        ShownPool();
        SameTableOf(tables, mgr.blockTables, left, x);
        if estimate(x).waste < maxWaste {
          ChosenKind(variant, estimate(x));
          VictimsPlaced(s, left);
          ghost var paused0 := paused;
          GiveUp(x, Chosen(variant, estimate(x)));
          ShownPool();
          FatesNext(variant, tables, estimate, order, room, paused0, paused, x);
          SameTablesNext(tables, s, View(), x, left);
          ChosenStep(s, View(), x, pre, left);
          PassedThen(s0, s, View());
          NoDupLonger(order, x);
          order := order + [x];
        } else {
          ChosenTarget(s, pre, x);
          pre := pre + [x];
        }
      }
    }

    /** A candidate loses its GPU blocks, unless its strategy is to keep them or the CPU cannot take them. */
    method GiveUp(v: Id, strategy: Mode)
      requires Valid() && Victim(View(), v, AtPaused)
      modifies this`waiting, this`running, this`paused, this`data, this`place
      modifies this`blocksToSwapOut, this`now, this`clash, mgr, mgr.gpu, mgr.cpu
      ensures Valid() && Kept(old(View()), View(), AtPaused) && OthersSame(old(View()), View(), v)
      ensures SameArenas(old(View()).pool, View().pool)
      ensures !strategy.Swap? ==> Journaled() == old(Journaled())
      ensures Anchored(old(View()), old(Journaled())) ==> Anchored(View(), Journaled()) && clash == old(clash)
      ensures paused == old(paused)[v := Outcome(strategy, |OnDevice(TableOf(old(mgr.blockTables), v), GPU)|,
        |old(mgr.cpu.freeBlocks)|)]
      ensures |mgr.cpu.freeBlocks| ==
        RoomAfter(strategy, TableOf(old(mgr.blockTables), v), |old(mgr.cpu.freeBlocks)|)
      ensures v in old(paused) && (old(CpuRoom()) ==> CpuRoom())
      ensures running == old(running) && waiting == old(waiting)
    {
      hide *;
      Known();
      ShownData();
      ShownPool();
      ghost var s, l := View(), Journaled();
      VictimBrief(s, v, AtPaused);
      VictimTable(s, l, v);
      OutcomeIs(|OnDevice(TableOf(mgr.blockTables, v), GPU)|, |mgr.cpu.freeBlocks|);
      RoomAfterIs(TableOf(mgr.blockTables, v), |mgr.cpu.freeBlocks|);
      match strategy {
        case Recompute =>
          DropVictim(v, false, AtPaused);
          DroppedParts(s, View(), v);
          ShownData();
          if Anchored(s, l) {
            AnchoredElsewhere(s, l, View(), v);
          }
        case Swap =>
          ParkVictim(v);
          ShownPool();
        case Preserve =>
          NothingStep(s, l, v);
      }
    }

    /** One phase over a list of the scheduler's own: afterwards what was scheduled runs, and what was
        delayed is back in the list that it came from. */
    method RunPhase(f: Flags, pre: seq<Id>, ghost batch: seq<Id>) returns (r: Round, ghost ph: PhaseRun)
      requires Valid() && Between(View(), pre, batch) && !f.q.QCombined? && (f.q.QRunning? ==> batch == [])
      requires batchMaxTokens >= 0 && maxSwapInBlocks >= 0 && f.preemptIfNeed && (f.selfPreempt ==> f.q.QRunning?)
      modifies this`waiting, this`swapped, this`running, this`combined, this`paused, this`data, this`place
      modifies this`maxSwapOutBlocks, this`maxSwapInBlocks, this`batchMaxTokens
      modifies this`blocksToSwapOut, this`blocksToSwapIn, this`now, this`clash, mgr, mgr.gpu, mgr.cpu
      ensures Valid() && Between(View(), r.pre, batch + r.scheduled) && Passed(old(View()), View(), r.ignored)
      ensures f.q.QWaiting? ==> Fresh(data, r.scheduled)
      ensures batchMaxTokens >= 0 && maxSwapInBlocks >= 0
      ensures batchMaxTokens + BatchTokens(data, batch + r.scheduled) ==
        old(batchMaxTokens) + BatchTokens(old(data), batch)
      ensures variant.V2? && old(CpuRoom()) ==> CpuRoom()
      ensures variant.V2? ==> blocksToSwapOut == old(blocksToSwapOut) && clash == old(clash)
      ensures PhaseCalled(variant, f, ph) && Refilled(ph.ended, ph.r, ph.closed) && ph.r == r && ph.pre == pre
      ensures ph.begun == old(View()) && ph.lim == old(LimitsNow())
      ensures ph.closed == View() && ph.limLeft == LimitsNow()
    {
      hide *;
      Known();
      ghost var s0, lim0 := View(), LimitsNow();
      OpenPhase(s0, Journaled(), f.q, pre, batch);
      BetweenParts(s0, pre, batch);
      ShownPool();
      ShownData();
      OpeningFields(f.q, pre);
      var hazard;
      ghost var call;
      r, hazard, call := Schedule(f, pre);
      assert !hazard;
      Known();
      ShownData();
      LimitsAre();
      ghost var s1, l1 := View(), Journaled();
      OnwardPassed(s0, Opening(f.q, pre), s1, r);
      OnwardQueue(s0, Opening(f.q, pre), s1, r);
      BatchThrough(s0, Opening(f.q, pre), s1, r, batch);
      ClosePhase(s1, l1, r, batch);
      RefilledIs(s1, l1, r);
      ph := PhaseRun(s0, lim0, pre, call, s1, r, LimitsNow(), Closed(s1, r));
      PhaseCalledIs(variant, f, ph);
      ClosedPassed(s1, l1, r);
      WaitingFresh(s1, r);
      ShownPending();
      Refill(r);
      LimitsAre();
      Established();
      PassedTrans(s0, s1, View(), r.ignored, []);
      NothingMore(r.ignored);
      ShownPending();
    }

    /** Appends the phase's local lists to the scheduler's. */
    method Refill(r: Round)
      requires mgr.Valid() && !r.q.QCombined?
      modifies this`waiting, this`swapped, this`running, this`place
      ensures mgr.Valid() && View() == Closed(old(View()), r)
    {
      hide PoolOk;
      NothingMore(running + r.scheduled);
      NothingMore(swapped);
      NothingMore(waiting);
      place := Rehoused(Rehoused(place, r.scheduled, AtBatch), r.delayed, Home(r.q));
      running := running + r.scheduled;
      match r.q {
        case QRunning => running := running + r.delayed;
        case QSwapped => swapped := swapped + r.delayed;
        case QWaiting => waiting := r.delayed + waiting;
      }
    }

    /** The newer scheduler's second phase, over one sorted copy of the swapped and the waiting
        requests.  Requests scheduled from the waiting list count as prompts. */
    method RunCombined(pre: seq<Id>, maxSequences: int, priority: Id -> real, promoted: set<Id>, batch: seq<Id>)
      returns (r: Round, prompts: seq<Id>, others: seq<Id>, hazard: bool, ghost ph: PhaseRun)
      requires Valid() && Between(View(), pre, batch) && batchMaxTokens >= 0 && maxSwapInBlocks >= 0
      modifies this`waiting, this`swapped, this`running, this`combined, this`paused, this`data, this`place, this`split
      modifies this`maxSwapOutBlocks, this`maxSwapInBlocks, this`batchMaxTokens
      modifies this`blocksToSwapOut, this`blocksToSwapIn, this`now, this`clash, mgr, mgr.gpu, mgr.cpu
      ensures Valid()
      ensures !hazard ==> Between(View(), r.pre, prompts + batch + others) && Passed(old(View()), View(), r.ignored)
      ensures !hazard ==> Fresh(data, prompts)
      ensures !hazard ==> batchMaxTokens >= 0 && maxSwapInBlocks >= 0
      ensures !hazard ==>
        batchMaxTokens + BatchTokens(data, prompts + batch + others) ==
          old(batchMaxTokens) + BatchTokens(old(data), batch)
      ensures variant.V2? ==> blocksToSwapOut == old(blocksToSwapOut) && clash == old(clash)
      ensures variant.V2? && old(CpuRoom()) ==> !hazard
      ensures !hazard ==>
        Merged(old(View()), ph.begun, priority, promoted) && PhaseCalled(variant, CombinedFlags(maxSequences), ph)
      ensures !hazard ==>
        && Divided(ph.ended, ph.r, ph.closed) && ph.r == r && ph.pre == pre && ph.lim == old(LimitsNow())
        && ph.closed == View() && ph.limLeft == LimitsNow()
        && prompts == Select(r.scheduled, In(ph.ended.waiting)) && others == Select(r.scheduled, In(ph.ended.swapped))
    {
      hide *;
      prompts, others := [], [];
      ghost var s, lim0 := View(), LimitsNow();
      ph := PhaseRun(s, lim0, pre, Call([], s, lim0, false), s, Opening(QCombined, pre), lim0, s);
      CombinedFlagsAre(maxSequences);
      LimitsAre();
      OpeningFields(QCombined, pre);
      StartCombined(pre, priority, promoted, batch);
      ghost var s0 := View();
      ghost var call;
      r, hazard, call := Schedule(Flags(QCombined, true, false, maxSequences, false, false), pre);
      if hazard {
        return;
      }
      ghost var s1 := View();
      LimitsAre();
      OnwardPassed(s0, Opening(QCombined, pre), s1, r);
      OnwardQueue(s0, Opening(QCombined, pre), s1, r);
      BatchThrough(s0, Opening(QCombined, pre), s1, r, batch);
      PassedTrans(s, s0, s1, [], r.ignored);
      ShownData();
      prompts, others := EndCombined(r, batch);
      LimitsAre();
      ph := PhaseRun(s0, lim0, pre, call, s1, r, LimitsNow(), View());
      PhaseCalledIs(variant, CombinedFlags(maxSequences), ph);
      PassedTrans(s, s1, View(), [] + r.ignored, []);
      NothingMore(r.ignored);
    }

    /** Copies and sorts the targets of the combined phase. */
    method StartCombined(ghost pre: seq<Id>, priority: Id -> real, promoted: set<Id>, ghost batch: seq<Id>)
      requires Valid() && Between(View(), pre, batch)
      modifies this`combined, this`split, this`place
      ensures Valid() && At(View(), Opening(QCombined, pre)) && Lists(batch, View().place, AtBatch)
      ensures Passed(old(View()), View(), []) && View().data == data
      ensures Merged(old(View()), View(), priority, promoted)
    {
      hide *;
      Known();
      ghost var s, l := View(), Journaled();
      ghost var c := CombineTargets(priority, promoted);
      MergedIs(s, l, c, pre, batch, priority, promoted);
      OpenCombined(s, l, c, pre, batch);
      CombinedPassed(s, l, c, pre, batch);
      Established();
      ShownData();
    }

    /** Parts the combined targets into the two queues again. */
    method EndCombined(r: Round, ghost batch: seq<Id>) returns (prompts: seq<Id>, others: seq<Id>)
      requires Valid() && At(View(), r) && r.cur.None? && r.q.QCombined? && Lists(batch, View().place, AtBatch)
      requires forall x :: x in r.delayed ==> x in data && data[x].Idle()
      modifies this`waiting, this`swapped, this`running, this`combined, this`split, this`place
      ensures Valid() && Between(View(), r.pre, prompts + batch + others) && Passed(old(View()), View(), [])
      ensures Fresh(data, prompts)
      ensures BatchTokens(data, prompts + batch + others) == BatchTokens(data, batch) + r.tokens
      ensures Divided(old(View()), r, View()) && prompts == Select(r.scheduled, In(old(View()).waiting))
      ensures others == Select(r.scheduled, In(old(View()).swapped))
    {
      hide *;
      Known();
      ShownData();
      ghost var s, l := View(), Journaled();
      DividedIs(s, l, r);
      CloseCombined(s, l, r, batch);
      PartedPassed(s, l, r);
      PromptsFresh(s, l, r);
      prompts, others := Select(r.scheduled, In(waiting)), Select(r.scheduled, In(swapped));
      PartTargets(r);
      Established();
    }

    method CombineTargets(priority: Id -> real, promoted: set<Id>) returns (ghost c: seq<Id>)
      requires mgr.Valid()
      modifies this`combined, this`split, this`place
      ensures mgr.Valid() && View() == Combined(old(View()), c)
      ensures multiset(c) == multiset(old(View()).swapped + old(View()).waiting)
      ensures c == Partition(SortedBy(old(View()).swapped + old(View()).waiting, priority),
                             Due(old(View()).data, promoted))
    {
      hide PoolOk, Partition, SortedBy;
      var due := Due(data, promoted);
      TargetsPermute(swapped + waiting, priority, due);
      combined := Partition(SortedBy(swapped + waiting, priority), due);
      split := true;
      place := Rehoused(place, combined, AtCombined);
      c := combined;
    }

    method PartTargets(r: Round)
      modifies this`waiting, this`swapped, this`running, this`combined, this`split, this`place
      ensures View() == Parted(old(View()), r)
    {
      hide Select, Rehoused, In, Parted;
      ghost var s := View();
      var left := r.delayed + combined;
      var toSwapped, toWaiting := Select(left, In(swapped)), Select(left, In(waiting));
      var places := Rehoused(Rehoused(Rehoused(place, r.scheduled, AtBatch), toSwapped, AtSwapped), toWaiting,
        AtWaiting);
      PartedIs(s, r, left, toSwapped, toWaiting, places);
      running, swapped, waiting, combined, split, place := running + r.scheduled, toSwapped, toWaiting, [], false,
        places;
    }

    /** The older scheduler's three phases: running, swapped and waiting requests. */
    method FillThree(g: Guidance, pre: seq<Id>) returns (plan: Plan, ghost phases: seq<PhaseRun>)
      requires Valid() && Between(View(), pre, []) && batchMaxTokens >= 0 && maxSwapInBlocks >= 0
      modifies this`waiting, this`swapped, this`running, this`combined, this`paused, this`data, this`place
      modifies this`maxSwapOutBlocks, this`maxSwapInBlocks, this`batchMaxTokens
      modifies this`blocksToSwapOut, this`blocksToSwapIn, this`now, this`clash, mgr, mgr.gpu, mgr.cpu
      ensures Valid() && Between(View(), [], plan.scheduled) && Passed(old(View()), View(), plan.ignored)
      ensures WellMarked(data, plan) && batchMaxTokens >= 0
      ensures batchMaxTokens + BatchTokens(data, plan.scheduled) == old(batchMaxTokens)
      ensures variant.V2? ==> blocksToSwapOut == old(blocksToSwapOut) && clash == old(clash)
      ensures InThree(variant, maxNumSeqs, g, pre, phases, old(View()), old(LimitsNow()), View(), plan)
    {
      hide *;
      ghost var s0, lim0 := View(), LimitsNow();
      LimitsAre();
      NoBatch(data);
      SortQueue(QRunning, g.running, pre, []);
      ghost var s1 := View();
      ShownPending();
      ShownData();
      LimitsAre();
      var first;
      ghost var a;
      first, a := RunPhase(Flags(QRunning, true, true, maxNumSeqs, false, false), pre, []);
      RunningFirstIs(variant, maxNumSeqs, g, pre, a, s0, lim0);
      ghost var s2 := View();
      PassedTrans(s0, s1, s2, [], first.ignored);
      var scheduled := first.scheduled;
      NothingMore(scheduled);
      NothingMore(first.ignored);
      LimitsAre();
      SortQueue(QSwapped, g.targets, first.pre, scheduled);
      ghost var s3 := View();
      LimitsAre();
      PassedTrans(s0, s2, s3, first.ignored, []);
      var second;
      ghost var b;
      second, b := RunPhase(Flags(QSwapped, true, false, maxNumSeqs - |scheduled|, false, true), first.pre, scheduled);
      SwappedNextIs(variant, maxNumSeqs, g, a, b);
      ghost var s4 := View();
      PassedTrans(s0, s3, s4, first.ignored, second.ignored);
      scheduled := scheduled + second.scheduled;
      ghost var done := first.ignored + second.ignored;
      NothingMore(done);
      LimitsAre();
      SortQueue(QWaiting, g.waiting, second.pre, scheduled);
      ghost var s5 := View();
      LimitsAre();
      PassedTrans(s0, s4, s5, done, []);
      var third;
      ghost var c;
      third, c := RunPhase(Flags(QWaiting, true, false, maxNumSeqs - |scheduled|, true, true), second.pre, scheduled);
      WaitingLastIs(variant, maxNumSeqs, g, a, b, c);
      PassedTrans(s0, s5, View(), done, third.ignored);
      BetweenForget(View(), third.pre, scheduled, third.scheduled);
      ShownData();
      plan := Plan(third.scheduled + scheduled, Marks(|third.scheduled|, |scheduled|),
        first.ignored + second.ignored + third.ignored);
      phases := [a, b, c];
      ThreeIs(variant, maxNumSeqs, g, pre, a, b, c, s0, lim0, View(), plan);
      Marked(data, third.scheduled, scheduled, plan.ignored);
    }

    /** The newer scheduler's two phases: running requests, then swapped and waiting ones together. */
    method FillTwo(g: Guidance, pre: seq<Id>)
      returns (plan: Plan, hazard: bool, ghost phases: seq<PhaseRun>)
      requires Valid() && Between(View(), pre, []) && batchMaxTokens >= 0 && maxSwapInBlocks >= 0
      modifies this`waiting, this`swapped, this`running, this`combined, this`paused, this`data, this`place, this`split
      modifies this`maxSwapOutBlocks, this`maxSwapInBlocks, this`batchMaxTokens
      modifies this`blocksToSwapOut, this`blocksToSwapIn, this`now, this`clash, mgr, mgr.gpu, mgr.cpu
      ensures Valid()
      ensures !hazard ==> Between(View(), [], plan.scheduled) && Passed(old(View()), View(), plan.ignored)
      ensures !hazard ==> WellMarked(data, plan) && batchMaxTokens >= 0
      ensures !hazard ==> batchMaxTokens + BatchTokens(data, plan.scheduled) == old(batchMaxTokens)
      ensures variant.V2? ==> blocksToSwapOut == old(blocksToSwapOut) && clash == old(clash)
      ensures variant.V2? && old(CpuRoom()) ==> !hazard
      ensures !hazard ==> InTwo(variant, maxNumSeqs, g, pre, phases, old(View()), old(LimitsNow()), View(), plan)
    {
      hide *;
      phases := [];
      ghost var s0, lim0 := View(), LimitsNow();
      LimitsAre();
      NoBatch(data);
      SortQueue(QRunning, g.running, pre, []);
      ghost var s1 := View();
      ShownPending();
      ShownData();
      LimitsAre();
      var first;
      ghost var a;
      first, a := RunPhase(Flags(QRunning, true, true, maxNumSeqs, false, false), pre, []);
      RunningFirstIs(variant, maxNumSeqs, g, pre, a, s0, lim0);
      ghost var s2 := View();
      PassedTrans(s0, s1, s2, [], first.ignored);
      var scheduled := first.scheduled;
      NothingMore(scheduled);
      NothingMore(first.ignored);
      plan := Plan([], [], []);
      var second, prompts, others;
      ghost var b;
      second, prompts, others, hazard, b := RunCombined(first.pre, maxNumSeqs - |scheduled|, g.targets, g.promoted,
        scheduled);
      if hazard {
        return;
      }
      BothNextIs(variant, maxNumSeqs, g, a, b);
      PassedTrans(s0, s2, View(), first.ignored, second.ignored);
      ghost var all := prompts + scheduled + others;
      NothingMore(all);
      BetweenForget(View(), second.pre, all, []);
      plan := Plan(prompts + scheduled + others, Marks(|prompts|, |scheduled| + |others|),
        first.ignored + second.ignored);
      phases := [a, b];
      TwoIs(variant, maxNumSeqs, g, pre, a, b, s0, lim0, View(), plan);
      MarkedThree(data, prompts, scheduled, others, plan.ignored);
    }

    /** `_schedule_chunk_and_fill`: discards, picks preemption targets, and runs the phases. */
    method ChunkAndFill(g: Guidance) returns (plan: Plan, hazard: bool, ghost it: Iteration)
      requires Valid() && Between(View(), [], []) && batchMaxTokens >= 0 && maxSwapInBlocks >= 0
      modifies this`waiting, this`swapped, this`running, this`combined, this`paused, this`data, this`place, this`split
      modifies this`maxSwapOutBlocks, this`maxSwapInBlocks, this`batchMaxTokens
      modifies this`blocksToSwapOut, this`blocksToSwapIn, this`now, this`clash, mgr, mgr.gpu, mgr.cpu
      ensures Valid() && (variant.InferCept? ==> !hazard)
      ensures !hazard ==>
        Between(View(), [], plan.scheduled) && Passed(old(View()), View(), plan.ignored) && WellMarked(data, plan)
      ensures !hazard ==>
        batchMaxTokens >= 0 && batchMaxTokens + BatchTokens(data, plan.scheduled) == old(batchMaxTokens)
      ensures variant.V2? && clash != old(clash) ==>
        !Anchored(old(View()), old(Journaled())) || Hasty(old(View()), old(Journaled()), g.discard)
      ensures old(CpuRoom()) ==> !hazard
      ensures !hazard ==> Iterated(variant, maxNumSeqs, g, old(LimitsNow()), it, old(View()), View(), plan)
    {
      hide *;
      ghost var s0, lim0 := View(), LimitsNow();
      LimitsAre();
      ActiveDiscard(g.discard);
      ghost var s1 := View();
      ShownPending();
      var pre, order := ChooseVictims(g.estimate);
      ghost var s2 := View();
      PassedThen(s0, s1, s2);
      LimitsAre();
      hazard := false;
      ghost var phases;
      match variant {
        case InferCept => plan, phases := FillThree(g, pre);
        case V2 => plan, hazard, phases := FillTwo(g, pre);
      }
      it := Iteration(s1, s2, pre, order, phases);
      if !hazard {
        IteratedIs(variant, maxNumSeqs, g, lim0, it, s0, View(), plan);
        PassedTrans(s0, s2, View(), [], plan.ignored);
        NothingMore(plan.ignored);
      }
    }

    method GetNumBatchedTokens(ids: seq<Id>) returns (n: int)
      requires forall x :: x in ids ==> x in data
      ensures n == BatchTokens(data, ids)
    {
      n := 0;
      var i := 0;
      while i < |ids|
        invariant i <= |ids| && n == BatchTokens(data, ids[..i])
      {
        n := n + data[ids[i]].resumeDiscard + data[ids[i]].runningInflight;
        BatchTokensConcat(data, ids[..i], [ids[i]]);
        assert ids[..i + 1] == ids[..i] + [ids[i]];
        i := i + 1;
      }
      assert ids[..i] == ids;
    }

    /** `schedule`: one iteration within its limits.  The assertion is the source's budget check. */
    method ScheduleBatch(g: Guidance, swapIn: nat, swapOut: nat)
      returns (plan: Plan, numBatched: int, hazard: bool, ghost it: Iteration)
      requires Valid() && Between(View(), [], [])
      modifies this`waiting, this`swapped, this`running, this`combined, this`paused, this`data, this`place, this`split
      modifies this`maxSwapOutBlocks, this`maxSwapInBlocks, this`batchMaxTokens
      modifies this`blocksToSwapOut, this`blocksToSwapIn, this`now, this`clash, mgr, mgr.gpu, mgr.cpu
      ensures Valid() && (variant.InferCept? ==> !hazard)
      ensures !hazard ==>
        Between(View(), [], plan.scheduled) && Passed(old(View()), View(), plan.ignored) && WellMarked(data, plan)
      ensures !hazard ==> numBatched == BatchTokens(data, plan.scheduled) && numBatched <= 384
      ensures variant.V2? && clash != old(clash) ==>
        !Anchored(old(View()), old(Journaled())) || Hasty(old(View()), old(Journaled()), g.discard)
      ensures old(CpuRoom()) ==> !hazard
      ensures !hazard ==>
        Iterated(variant, maxNumSeqs, g, Allowance(variant, swapIn, swapOut), it, old(View()), View(), plan)
    {
      hide *;
      Known();
      SetLimits(swapIn, swapOut);
      Established();
      LimitsAre();
      AllowanceIs(variant, swapIn, swapOut);
      var maxTokens := batchMaxTokens;
      plan, hazard, it := ChunkAndFill(g);
      numBatched := 0;
      if !hazard {
        Known();
        ShownData();
        BatchKnown(View(), Journaled(), plan.scheduled);
        numBatched := GetNumBatchedTokens(plan.scheduled);
        assert numBatched <= maxTokens;
      }
    }

    /** The limits of one iteration.  The older scheduler derives its swap limits from measured
        coefficients, which are parameters here. */
    method SetLimits(swapIn: nat, swapOut: nat)
      modifies this`batchMaxTokens, this`maxSwapInBlocks, this`maxSwapOutBlocks
      ensures batchMaxTokens == 384
      ensures maxSwapInBlocks == if variant.V2? then 1_000_000_000 else swapIn
      ensures maxSwapOutBlocks == if variant.V2? then 1_000_000_000 else swapOut
    {
      batchMaxTokens := 384;
      maxSwapInBlocks := if variant.V2? then 1_000_000_000 else swapIn;
      maxSwapOutBlocks := if variant.V2? then 1_000_000_000 else swapOut;
    }

    // ---- Requests come, pause, resume and go

    method AddSeqGroup(x: Id, prompt: seq<Token>)
      requires Valid() && Between(View(), [], []) && x !in data && prompt != []
      modifies this`waiting, this`data, this`place
      ensures Valid() && Between(View(), [], []) && View() == Arrived(old(View()), x, prompt)
      ensures Anchored(old(View()), old(Journaled())) ==> Anchored(View(), Journaled())
    {
      hide PoolOk, Sound, Between, Anchored;
      ghost var s, l := View(), Journaled();
      if Anchored(s, l) { AnchoredArrived(s, l, x, prompt); }
      UnsplitBetween(s, [], []);
      ArrivedSound(s, l, x, prompt);
      ArrivedBetween(s, l, x, prompt);
      data := data[x := SeqRec(prompt, [], Status.Waiting, 0, 0, 0, 0, |prompt|, 0, 0, 0)];
      place := place[x := AtWaiting];
      waiting := waiting + [x];
    }

    /** `resume_request` and `resume_seq_group` for one sequence.  `false` stands for the error that the
        request is not paused.  The returned tokens are cut to the two length limits; like a Python
        slice, a negative limit cuts from the end instead. */
    method ResumeRequest(x: Id, ret: seq<Token>, maxModelLen: int, maxTokens: int) returns (known: bool)
      requires Valid() && Between(View(), [], [])
      modifies this`waiting, this`running, this`swapped, this`paused, this`data, this`place
      ensures Valid() && Between(View(), [], []) && (known <==> x in old(paused))
      ensures !known ==> View() == old(View())
      ensures known ==> x in old(data)
      ensures known ==>
        View() == Resumed(old(View()), x, PySlice(ret, Allowed(old(data)[x], |ret|, maxModelLen, maxTokens)))
      ensures Anchored(old(View()), old(Journaled())) ==> Anchored(View(), Journaled())
    {
      hide *;
      Known();
      ShownData();
      known := x in paused;
      if known {
        ghost var s, l := View(), Journaled();
        UnsplitBetween(s, [], []);
        PausedInData(s, l, x);
        var tokens := PySlice(ret, Allowed(data[x], |ret|, maxModelLen, maxTokens));
        Resume(x, tokens);
        ResumedSound(s, l, x, tokens);
        ResumedBetween(s, l, x, tokens);
        if Anchored(s, l) { AnchoredResumed(s, l, x, tokens); }
        Established();
      }
    }

    method Resume(x: Id, tokens: seq<Token>)
      requires x in paused && x in data
      modifies this`waiting, this`running, this`swapped, this`paused, this`data, this`place
      ensures x in old(View()).data && x in old(View()).paused && View() == Resumed(old(View()), x, tokens)
    {
      ghost var m, d := data, data[x].(output := data[x].output + tokens, inflight := data[x].inflight + |tokens|);
      AppendTokens(x, tokens);
      data := data[x := data[x].(status := ResumedApi)];
      UpdateTwice(m, x, d, d.(status := ResumedApi));
      UpdateTwice(m, x, d.(status := ResumedApi), d.(status := Status.Running));
      UpdateTwice(m, x, d.(status := ResumedApi), d.(status := Status.Swapped));
      UpdateTwice(m, x, d.(status := ResumedApi), d.(status := Status.Waiting));
      Requeue(x);
    }

    method AppendTokens(x: Id, tokens: seq<Token>)
      requires x in data
      modifies this`data
      ensures x in old(data)
      ensures data == old(data)[x := old(data)[x].(output := old(data)[x].output + tokens,
                                                  inflight := old(data)[x].inflight + |tokens|)]
    {
      ghost var d := data[x];
      var i := 0;
      assert d.output + tokens[..0] == d.output;
      while i < |tokens|
        invariant i <= |tokens|
        invariant data == old(data)[x := d.(output := d.output + tokens[..i], inflight := d.inflight + i)]
      {
        data := data[x := data[x].Appended(tokens[i])];
        assert tokens[..i + 1] == tokens[..i] + [tokens[i]];
        assert d.output + tokens[..i + 1] == d.output + tokens[..i] + [tokens[i]];
        i := i + 1;
      }
      assert tokens[..i] == tokens;
    }

    /** Takes a resumed request off the paused ones and puts it where its pause mode says. */
    method Requeue(x: Id)
      requires x in paused && x in data
      modifies this`waiting, this`running, this`swapped, this`paused, this`data, this`place
      ensures x in old(paused) && x in old(data) && paused == old(paused) - {x}
      ensures match old(paused)[x]
        case Preserve => (running == old(running) + [x] && waiting == old(waiting) && swapped == old(swapped)
          && data == old(data)[x := old(data)[x].(status := Status.Running)] && place == old(place)[x := AtRunning])
        case Swap => (swapped == old(swapped) + [x] && waiting == old(waiting) && running == old(running)
          && data == old(data)[x := old(data)[x].(status := Status.Swapped)] && place == old(place)[x := AtSwapped])
        case Recompute => (waiting == [x] + old(waiting) && running == old(running) && swapped == old(swapped)
          && data == old(data)[x := old(data)[x].(status := Status.Waiting)] && place == old(place)[x := AtWaiting])
    {
      var mode := paused[x];
      paused := paused - {x};
      match mode {
        case Preserve =>
          data, place := data[x := data[x].(status := Status.Running)], place[x := AtRunning];
          running := running + [x];
        case Swap =>
          data, place := data[x := data[x].(status := Status.Swapped)], place[x := AtSwapped];
          swapped := swapped + [x];
        case Recompute =>
          data, place := data[x := data[x].(status := Status.Waiting)], place[x := AtWaiting];
          waiting := [x] + waiting;
      }
    }

    /** `abort_seq_group` for one request: it searches the three queues only, so a paused request stays. */
    method AbortSeqGroup(x: Id)
      requires Valid() && Between(View(), [], [])
      modifies this`waiting, this`running, this`swapped, this`data, this`place, mgr, mgr.gpu, mgr.cpu
      ensures Valid() && Between(View(), [], []) && SameArenas(old(mgr.View()), mgr.View())
      ensures if x in old(waiting) || x in old(running) || x in old(swapped)
              then x in old(data) && View() == Departed(old(View()), x, FinishedAborted, mgr.View())
                   && mgr.blockTables == old(mgr.blockTables) - {x}
              else View() == old(View())
      ensures Anchored(old(View()), old(Journaled())) ==>
        Anchored(View(), Journaled()) || (x in old(swapped) && Awaiting(old(View()), old(Journaled()), x))
    {
      hide *;
      Known();
      ShownData();
      ShownPool();
      AbortEnds();
      ArenasSame(mgr.View());
      if x in waiting || x in running || x in swapped {
        ghost var s, l := View(), Journaled();
        UnsplitBetween(s, [], []);
        QueuedKnown(s, l, x);
        Depart(x, FinishedAborted);
        ShownPool();
        LeftSound(s, l, x, FinishedAborted, mgr.View());
        DepartedBetween(s, l, x, FinishedAborted, mgr.View());
        if Anchored(s, l) && !(x in s.swapped && Awaiting(s, l, x)) {
          AnchoredDeparted(s, l, x, FinishedAborted, mgr.View());
        }
        Established();
      }
    }

    /** Takes a request out of its queue and frees its blocks. */
    method Depart(x: Id, status: Status)
      requires mgr.Valid() && x in data
      modifies this`waiting, this`running, this`swapped, this`data, this`place, mgr, mgr.gpu, mgr.cpu
      ensures mgr.Valid() && PoolOk(mgr.View()) && SameArenas(old(mgr.View()), mgr.View())
      ensures x in old(View()).data && View() == Departed(old(View()), x, status, mgr.View())
      ensures mgr.blockTables == old(mgr.blockTables) - {x}
    {
      hide PoolOk, Remove;
      waiting, running, swapped := Remove(waiting, x), Remove(running, x), Remove(swapped, x);
      data := data[x := data[x].(status := status)];
      mgr.Free(x);
      place := place[x := AtDone];
    }

    // ---- The outputs of one iteration

    /** The model has run: pending copies are done and the batch's keys and values are in memory `mem`. */
    method Settled(ghost mem: Mem)
      requires Valid() && RowsReach(View(), mem)
      modifies this`blocksToSwapOut, this`blocksToSwapIn, this`start, this`now, this`clash
      ensures Valid() && RowsReach(View(), mem) && now == start == mem && !clash
      ensures blocksToSwapOut == map[] && blocksToSwapIn == map[]
    {
      hide PoolOk, Sound, RowsReach;
      ForwardSound(View(), Journaled(), mem);
      blocksToSwapOut, blocksToSwapIn := map[], map[];
      start, now, clash := mem, mem, false;
    }

    /** Handles the next sample, if its request is completely forwarded. */
    method RespondNext(ghost scheduled: seq<Id>, answered: seq<Id>, outputs: seq<Sample>, i: nat, ghost s0: Sys)
      requires i < |answered| && |outputs| == |answered| && Draining()
      requires answered[i] in s0.data && answered[i] in s0.place && s0.place[answered[i]].AtBatch?
      requires Responding(s0, View(), answered, outputs, i) && AnchoredNow() && blocksToSwapIn == map[]
      requires DealtSoFar(s0, View(), scheduled, answered, outputs, i) && answered[i] in scheduled
      modifies this`paused, this`data, this`place, this`blocksToSwapOut, this`now, this`clash, mgr
      modifies mgr.gpu, mgr.cpu
      ensures Draining() && Responding(s0, View(), answered, outputs, i + 1)
      ensures DealtSoFar(s0, View(), scheduled, answered, outputs, i + 1)
      ensures AnchoredNow() && clash == old(clash) && blocksToSwapIn == map[]
      ensures NoSwaps(outputs) && old(blocksToSwapOut) == map[] ==> blocksToSwapOut == map[]
    {
      hide *;
      var x, a := answered[i], outputs[i];
      ghost var s := View();
      RespondingKnown(s0, s, answered, outputs, i);
      ShownData();
      ShownPool();
      if data[x].inflight == 0 {
        Respond(x, a);
        ShownData();
        ShownPool();
        RespondedDone(s0, s, View(), x, a);
        if NoSwaps(outputs) { NoSwapsAt(outputs, i); }
      } else {
        NotRespondedDone(s0, s, x, a);
      }
      RespondingNext(s0, s, View(), answered, outputs, i);
      DealtNext(s0, s, View(), scheduled, answered, outputs, i);
    }

    /** `_process_model_outputs`: `outputs` answers, in order, the requests with tokens in the batch. */
    method ProcessOutputs(scheduled: seq<Id>, outputs: seq<Sample>)
      requires Valid() && Between(View(), [], scheduled) && RowsReach(View(), now)
      requires blocksToSwapOut == map[] && blocksToSwapIn == map[]
      requires |outputs| == |WithOutput(data, scheduled)|
      modifies this`running, this`paused, this`data, this`place, this`blocksToSwapOut, this`now, this`clash, mgr
      modifies mgr.gpu, mgr.cpu
      ensures Valid() && Between(View(), [], []) && blocksToSwapIn == map[]
      ensures SameArenas(old(mgr.View()), mgr.View()) && place.Keys == old(place.Keys)
      ensures clash == old(clash) && AllGrow(old(data), data) && AllAdvanced(old(data), data, scheduled)
      ensures data.Keys == old(data.Keys)
      ensures Anchored(View(), Journaled()) && (NoSwaps(outputs) ==> blocksToSwapOut == map[])
      ensures forall i :: 0 <= i < |outputs| ==>
        var x := WithOutput(old(data), scheduled)[i];
        x in old(data) && x in data && x in place && Answered(old(data)[x], data[x], place[x], outputs[i])
      ensures DealtSoFar(old(View()), View(), scheduled, WithOutput(old(data), scheduled), outputs, |outputs|)
      ensures running == Live(old(running), place)
    {
      hide *;
      Known();
      ghost var s0, l0 := View(), Journaled();
      ShownData();
      ShownPool();
      AnsweredBatch(s0, l0, scheduled);
      BetweenParts(s0, [], scheduled);
      var answered := WithOutput(data, scheduled);
      PostForwardAll(scheduled);
      Known();
      RespondingStart(s0, l0, View(), scheduled, outputs);
      AnsweredOnce(s0, scheduled);
      DealtStart(s0, View(), scheduled, answered, outputs);
      ShownPool();
      BeginDraining();
      var i := 0;
      while i < |answered|
        invariant i <= |answered| && Draining() && Responding(s0, View(), answered, outputs, i)
        invariant DealtSoFar(s0, View(), scheduled, answered, outputs, i) && running == old(running)
        invariant AnchoredNow() && clash == old(clash) && blocksToSwapIn == map[]
        invariant NoSwaps(outputs) ==> blocksToSwapOut == map[]
      {
        RespondNext(scheduled, answered, outputs, i, s0);
        i := i + 1;
      }
      ghost var s1 := View();
      ShownPool();
      RespondingEnd(s0, s1, answered, outputs);
      RespondingKeys(s0, s1, answered, outputs, i);
      AdvancedAll(s0, s1, l0, scheduled);
      RespondingArenas(s0, s1, answered, outputs, i);
      BetweenLive(s1);
      DrainingKnown();
      FreeFinished();
      DealtLive(s0, s1, scheduled, answered, outputs, i);
      ShownPool();
      ShownData();
      forall j | 0 <= j < |outputs|
        ensures var x := answered[j];
          x in s0.data && x in data && x in place && Answered(s0.data[x], data[x], place[x], outputs[j])
      {
        DoneParts(s0, s1, answered[j], outputs[j]);
      }
    }

    /** All of the invariant, on the running list without the requests that are to be dropped from it. */
    ghost predicate Draining()
      reads this, mgr, mgr.gpu, mgr.cpu
    {
      mgr.Valid() && NoDup(running) && !split && Sound(LiveState(View()), Journaled())
    }

    ghost predicate AnchoredNow()
      reads this, mgr, mgr.gpu, mgr.cpu
    {
      Anchored(LiveState(View()), Journaled())
    }

    method PostForwardAll(ids: seq<Id>)
      requires Valid() && Between(View(), [], ids) && RowsReach(View(), now)
      requires blocksToSwapOut == map[] && blocksToSwapIn == map[]
      modifies this`data, this`place
      ensures Valid() && PartlyForwarded(old(View()), View(), ids)
    {
      hide PoolOk, Sound, RowsReach, PartlyForwarded, Between;
      ghost var s0 := View();
      BetweenParts(s0, [], ids);
      PartlyStart(s0, Journaled());
      var i := 0;
      assert ids[..0] == [];
      while i < |ids|
        invariant i <= |ids|
        invariant Valid() && RowsReach(View(), now) && PartlyForwarded(s0, View(), ids[..i])
      {
        ghost var s := View();
        PartlyPending(s0, s, ids, i);
        var x := ids[i];
        PostForwardSound(s, Journaled(), x);
        PartlyNext(s0, s, ids, i);
        data := data[x := data[x].Forwarded()];
        place := place[x := if data[x].inflight == 0 then AtForwarded else AtRunning];
        i := i + 1;
      }
      assert ids[..i] == ids;
    }

    lemma BeginDraining()
      requires Valid() && !split
      ensures Draining() && (blocksToSwapOut == map[] && blocksToSwapIn == map[] ==> AnchoredNow())
    {
      hide PoolOk, Sound, Live;
      StartDraining(View(), Journaled());
    }

    lemma DrainingKnown()
      requires Draining()
      ensures mgr.Valid() && NoDup(running) && !split && Sound(LiveState(View()), Journaled())
      ensures AnchoredNow() <==> Anchored(LiveState(View()), Journaled())
    {
    }

    lemma DrainingNow()
      requires mgr.Valid() && NoDup(running) && !split && Sound(LiveState(View()), Journaled())
      ensures Draining() && (AnchoredNow() <==> Anchored(LiveState(View()), Journaled()))
    {
    }

    /** `free_finished_seq_groups`: drops finished and paused requests from the running list. */
    method FreeFinished()
      requires Draining()
      modifies this`running
      ensures Valid() && View() == LiveState(old(View()))
    {
      hide PoolOk, Sound, Live;
      running := Live(running, place);
    }

    /** One sampled token: it is appended, and its request goes on, finishes or pauses. */
    method Respond(x: Id, a: Sample)
      requires Draining() && AnchoredNow() && x in place && x in data && place[x].AtForwarded?
      modifies this`paused, this`data, this`place, this`blocksToSwapOut, this`now, this`clash, mgr, mgr.gpu, mgr.cpu
      ensures Draining() && AnchoredNow() && SameArenas(old(mgr.View()), mgr.View()) && clash == old(clash)
      ensures x in old(data) && x in data && x in place
      ensures data == old(data)[x := data[x]] && place == old(place)[x := place[x]]
      ensures Replied(old(data)[x], data[x], place[x], a) && data[x].Remains(old(data)[x].Appended(a.token))
      ensures !(a.verdict.Pause? && a.verdict.mode.Swap?) ==> blocksToSwapOut == old(blocksToSwapOut)
      ensures Replying(old(View()), View(), x, a)
    {
      hide *;
      DrainingKnown();
      ShownData();
      ShownPool();
      ghost var s, l, d := View(), Journaled(), data[x];
      ForwardedRuns(s, l, x);
      AppendSample(x, a.token);
      LiveNextToken(s, l, View(), x, a.token);
      NextTokenFields(s, x, a.token);
      DrainingNow();
      ShownData();
      ShownPool();
      ghost var s1, d1 := View(), data[x];
      match a.verdict {
        case Continue => RepliedContinue(d, a); ReplyingContinue(s, s1, x, a);
        case Finish(capped) => FinishSeq(x, FinalStatus(capped)); RepliedFinish(d, a);
        case Pause(mode) => PauseSeqGroup(x, mode); RepliedPause(d, data[x], a);
      }
      ShownData();
      ShownPool();
      if a.verdict.Finish? { ReplyingFinish(s, s1, View(), x, a); }
      if a.verdict.Pause? { ReplyingPause(s, s1, View(), x, a); }
      UpdateTwice(old(data), x, d1, data[x]);
      UpdateTwice(old(place), x, AtRunning, place[x]);
    }

    method AppendSample(x: Id, token: Token)
      requires x in data
      modifies this`data, this`place
      ensures x in old(View()).data && View() == NextToken(old(View()), x, token)
    {
      data := data[x := data[x].Appended(token)];
      place := place[x := AtRunning];
    }

    /** A finished sequence frees its blocks. */
    method FinishSeq(x: Id, status: Status)
      requires Draining() && AnchoredNow() && x in place && x in data
      requires place[x].AtRunning? && status.IsFinished() && !status.FinishedIgnored?
      modifies this`data, this`place, mgr, mgr.gpu, mgr.cpu
      ensures Draining() && AnchoredNow() && SameArenas(old(mgr.View()), mgr.View())
      ensures x in old(data) && data == old(data)[x := old(data)[x].(status := status)]
      ensures place == old(place)[x := AtDone]
      ensures mgr.blockTables == old(mgr.blockTables) - {x} && Beside(old(View()), View(), x)
      ensures x in old(mgr.blockTables)
      ensures |mgr.cpu.freeBlocks| == |old(mgr.cpu.freeBlocks)| + |OnDevice(old(mgr.blockTables)[x], CPU)|
    {
      hide PoolOk, Sound, LiveState, Anchored, Beside, OnDevice, Exclusive;
      ghost var s, l := View(), Journaled();
      LiveTable(s, l, x);
      data := data[x := data[x].(status := status)];
      mgr.Free(x);
      place := place[x := AtDone];
      LiveFinished(s, l, View(), x, status);
      FinishedFreed(s, View(), x);
    }

    /** `pause_seq_group` in the mode that the pause policy chose: a swap that the CPU has no room for
        falls back to keeping the blocks. */
    method PauseSeqGroup(x: Id, mode: Mode)
      requires Draining() && AnchoredNow() && x in place && x in data && place[x].AtRunning?
      modifies this`paused, this`data, this`place, this`blocksToSwapOut, this`now, this`clash, mgr, mgr.gpu, mgr.cpu
      ensures Draining() && AnchoredNow() && SameArenas(old(mgr.View()), mgr.View()) && clash == old(clash)
      ensures x in old(data) && x in data && data == old(data)[x := data[x]] && data[x].Remains(old(data)[x])
      ensures place == old(place)[x := AtPaused] && x in paused
      ensures !mode.Swap? ==> blocksToSwapOut == old(blocksToSwapOut) && paused == old(paused)[x := mode]
      ensures mode.Swap? ==> paused == old(paused)[x := if x in old(mgr.blockTables)
        && |OnDevice(old(mgr.blockTables)[x], GPU)| <= |old(mgr.cpu.freeBlocks)| then Swap else Preserve]
      ensures x in old(mgr.blockTables) && Beside(old(View()), View(), x)
      ensures PausedBy(View(), x, mode, old(data)[x].Cached(), old(mgr.blockTables)[x], |old(mgr.cpu.freeBlocks)|)
      ensures |mgr.cpu.freeBlocks| == RoomAfter(mode, old(mgr.blockTables)[x], |old(mgr.cpu.freeBlocks)|)
    {
      hide *;
      ShownData();
      ShownPool();
      PausedText(data[x]);
      ArenasSame(mgr.View());
      match mode {
        case Preserve => KeepBlocks(x, mode);
        case Recompute => GiveBlocks(x);
        case Swap =>
          var done := ParkRunning(x);
          ShownData();
          ShownPool();
          if !done {
            KeepBlocks(x, mode);
          }
      }
    }

    method KeepBlocks(x: Id, ghost mode: Mode)
      requires Draining() && AnchoredNow() && x in place && x in data && place[x].AtRunning?
      requires mode.Preserve? || (mode.Swap? && x in mgr.blockTables &&
        |mgr.cpu.freeBlocks| < |OnDevice(mgr.blockTables[x], GPU)|)
      modifies this`paused, this`data, this`place
      ensures Draining() && AnchoredNow()
      ensures x in old(data) && data == old(data)[x := old(data)[x].(status := PausedApi)]
      ensures place == old(place)[x := AtPaused] && paused == old(paused)[x := Preserve]
      ensures x in old(mgr.blockTables) && Beside(old(View()), View(), x)
      ensures PausedBy(View(), x, mode, old(data)[x].Cached(), old(mgr.blockTables)[x], |old(mgr.cpu.freeBlocks)|)
      ensures |mgr.cpu.freeBlocks| == RoomAfter(mode, old(mgr.blockTables)[x], |old(mgr.cpu.freeBlocks)|)
    {
      hide PoolOk, Sound, LiveState, Anchored, OnDevice, PausedBy, RoomAfter, Beside;
      ghost var s, l := View(), Journaled();
      LiveTable(s, l, x);
      data := data[x := data[x].(status := PausedApi)];
      paused := paused[x := Preserve];
      place := place[x := AtPaused];
      LivePreserved(s, l, View(), x);
      KeptPaused(s, View(), x, mode);
    }

    method GiveBlocks(x: Id)
      requires Draining() && AnchoredNow() && x in place && x in data && place[x].AtRunning?
      modifies this`paused, this`data, this`place, mgr, mgr.gpu, mgr.cpu
      ensures Draining() && AnchoredNow() && SameArenas(old(mgr.View()), mgr.View())
      ensures x in old(data) && data == old(data)[x := old(data)[x].Restarted().(status := PausedApi)]
      ensures place == old(place)[x := AtPaused] && paused == old(paused)[x := Recompute]
      ensures x in old(mgr.blockTables) && Beside(old(View()), View(), x)
      ensures PausedBy(View(), x, Recompute, old(data)[x].Cached(), old(mgr.blockTables)[x], |old(mgr.cpu.freeBlocks)|)
      ensures |mgr.cpu.freeBlocks| == RoomAfter(Recompute, old(mgr.blockTables)[x], |old(mgr.cpu.freeBlocks)|)
    {
      hide PoolOk, Sound, LiveState, Anchored, OnDevice, PausedBy, RoomAfter, Beside, Exclusive;
      ghost var s, l := View(), Journaled();
      LiveTable(s, l, x);
      PauseByRecompute(x);
      UpdateTwice(s.data, x, s.data[x].Restarted(), s.data[x].Restarted().(status := PausedApi));
      data := data[x := data[x].(status := PausedApi)];
      place := place[x := AtPaused];
      LiveDiscarded(s, l, View(), x);
      GivenPaused(s, View(), x);
    }

    /** Swaps a running request that pauses out; `false` when the CPU has no room. */
    method ParkRunning(x: Id) returns (done: bool)
      requires Draining() && AnchoredNow() && x in place && x in data && place[x].AtRunning?
      modifies this`paused, this`data, this`place, this`blocksToSwapOut, this`now, this`clash, mgr, mgr.gpu, mgr.cpu
      ensures Draining() && AnchoredNow() && SameArenas(old(mgr.View()), mgr.View()) && clash == old(clash)
      ensures x in old(data) && x in old(mgr.blockTables)
      ensures done <==> |OnDevice(old(mgr.blockTables)[x], GPU)| <= |old(mgr.cpu.freeBlocks)|
      ensures !done ==> View() == old(View()) && Journaled() == old(Journaled())
      ensures done ==> x in data && data == old(data)[x := data[x]] && data[x].Remains(old(data)[x])
      ensures done ==> place == old(place)[x := AtPaused] && paused == old(paused)[x := Swap]
      ensures done ==> Beside(old(View()), View(), x)
      ensures done ==>
        PausedBy(View(), x, Swap, old(data)[x].Cached(), old(mgr.blockTables)[x], |old(mgr.cpu.freeBlocks)|)
      ensures done ==> |mgr.cpu.freeBlocks| == RoomAfter(Swap, old(mgr.blockTables)[x], |old(mgr.cpu.freeBlocks)|)
    {
      hide PoolOk, Sound, LiveState, Anchored, OutStep, OnDevice, Exclusive, PausedBy, RoomAfter, Beside;
      ghost var s, l := View(), Journaled();
      LiveTable(s, l, x);
      ghost var m;
      done, m := SwapOutBlocks(x);
      ghost var s1 := View();
      if done {
        OutStepFields(s, l, s1, Journaled(), x, m);
        OutStepArenas(s, l, s1, Journaled(), x, m);
        data := data[x := SwappedRec(data[x], |mgr.blockTables[x]|).(status := PausedApi)];
        paused := paused[x := Swap];
        place := place[x := AtPaused];
        LiveParked(s, l, s1, Journaled(), View(), x, m);
        ParkedPaused(s, l, s1, Journaled(), View(), x, m);
      }
    }
  }
}
