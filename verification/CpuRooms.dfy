/** Room on the CPU: when making it must restart a swapped request, and when it need not. */
module CpuRooms {
  import opened Basics
  import opened Blocks
  import opened Sequences
  import opened Layouts
  import opened BlockManager
  import opened System
  import opened Memory
  import opened Steps
  import opened Preemption

  /** The GPU blocks of the preserved paused requests: all that preemption may ask the CPU to take. */
  ghost function PreservedBlocks(tables: map<Id, Table>, paused: map<Id, Mode>): set<Block> {
    set x, b | x in paused && paused[x].Preserve? && x in tables && b in OnDevice(tables[x], GPU) :: b
  }

  /** The free CPU blocks can take the GPU blocks of every preserved paused request. */
  ghost predicate Roomy(p: Pool, paused: map<Id, Mode>) {
    |PreservedBlocks(p.tables, paused)| <= |p.cpu.free|
  }

  lemma SubsetSize(s: set<Block>, t: set<Block>)
    requires s <= t
    ensures |s| <= |t|
  {
    assert t == s + (t - s);
  }

  lemma RoomyVictim(p: Pool, paused: map<Id, Mode>, v: Id)
    requires Roomy(p, paused) && v in paused && paused[v].Preserve? && v in p.tables
    ensures |OnDevice(p.tables[v], GPU)| <= |p.cpu.free|
  {
    SubsetSize(OnDevice(p.tables[v], GPU), PreservedBlocks(p.tables, paused));
  }

  /** There is room whenever nothing is preserved, or every used GPU block has a free CPU block. */
  lemma RoomyWhen(p: Pool, paused: map<Id, Mode>)
    requires PoolOk(p)
    requires (forall x :: x in paused ==> !paused[x].Preserve?) || |p.gpu.refs| - |p.gpu.free| <= |p.cpu.free|
    ensures Roomy(p, paused)
  {
    var kept := PreservedBlocks(p.tables, paused);
    if forall x :: x in paused ==> !paused[x].Preserve? {
      assert kept == {};
    } else {
      var numbers := set b | b in kept :: b.number;
      NumbersOfBlocks(kept, GPU);
      FreePlusOwned(p, GPU);
      forall n | n in numbers ensures n in OwnedNumbers(p, GPU) {
        KeptOwned(p, paused, n);
      }
      SubsetSizes(numbers, OwnedNumbers(p, GPU));
    }
  }

  lemma KeptOwned(p: Pool, paused: map<Id, Mode>, n: nat)
    requires PoolOk(p) && Block(GPU, n) in PreservedBlocks(p.tables, paused)
    ensures n in OwnedNumbers(p, GPU)
  {
    var b := Block(GPU, n);
    var x :| x in paused && paused[x].Preserve? && x in p.tables && b in OnDevice(p.tables[x], GPU);
    assert b in p.tables[x];
    OwnedHasRef(p, x, b);
  }

  /** Nothing more is preserved, and no CPU block was taken. */
  lemma RoomyAfter(p: Pool, paused: map<Id, Mode>, p': Pool, paused': map<Id, Mode>)
    requires Roomy(p, paused) && |p.cpu.free| <= |p'.cpu.free|
    requires forall y :: y in paused' && paused'[y].Preserve? && y in p'.tables ==>
      y in paused && paused[y].Preserve? && y in p.tables && p'.tables[y] == p.tables[y]
    ensures Roomy(p', paused')
  {
    SubsetSize(PreservedBlocks(p'.tables, paused'), PreservedBlocks(p.tables, paused));
  }

  lemma RoomySpared(s: Sys, s': Sys, x: Id)
    requires Spared(s, s', x) && Roomy(s.pool, s.paused) && s'.paused.Keys == s.paused.Keys
    requires s.pool.tables.Keys <= s.place.Keys
    ensures Roomy(s'.pool, s'.paused)
  {
    hide Kept, NoMore, SameArenas, Roomy, PoolOk, Exclusive;
    forall y | y in s'.paused && s'.paused[y].Preserve? && y in s'.pool.tables
      ensures y in s.paused && s.paused[y].Preserve? && y in s.pool.tables && s'.pool.tables[y] == s.pool.tables[y]
    {
      assert y != x;
      assert y in s.pool.tables.Keys - {x};
      assert SameAt(s, s', y);
    }
    RoomyAfter(s.pool, s.paused, s'.pool, s'.paused);
  }

  lemma RoomyDrop(s: Sys, s': Sys, v: Id, onRunning: bool)
    requires DropStep(s, s', v, onRunning) && Roomy(s.pool, s.paused)
    requires PoolOk(s.pool) && Exclusive(s.pool.tables) && v in s.pool.tables
    ensures Roomy(s'.pool, s'.paused)
  {
    hide Roomy, PoolOk, Exclusive;
    FreedCounts(s.pool, s'.pool, v);
    RoomyAfter(s.pool, s.paused, s'.pool, s'.paused);
  }

  /** A table of a request that is not paused changed, and no CPU block was taken. */
  lemma RoomyBeside(p: Pool, paused: map<Id, Mode>, p': Pool, c: Id)
    requires Roomy(p, paused) && |p.cpu.free| <= |p'.cpu.free| && c !in paused
    requires c in p'.tables && p'.tables == p.tables[c := p'.tables[c]]
    ensures Roomy(p', paused)
  {
    hide Roomy;
    RoomyAfter(p, paused, p', paused);
  }

  /** Swapping a preserved request out takes exactly the room that was kept for it. */
  lemma RoomyParked(p: Pool, paused: map<Id, Mode>, p': Pool, v: Id)
    requires Roomy(p, paused) && PoolOk(p) && Exclusive(p.tables) && v in paused && paused[v].Preserve? && v in p.tables
    requires v in p'.tables && p'.tables == p.tables[v := p'.tables[v]]
    requires |p'.cpu.free| == |p.cpu.free| - |OnDevice(p.tables[v], GPU)|
    ensures Roomy(p', paused[v := Swap])
  {
    var all, mine := PreservedBlocks(p.tables, paused), OnDevice(p.tables[v], GPU);
    var left := PreservedBlocks(p'.tables, paused[v := Swap]);
    forall b | b in left ensures b in all - mine {
      var x :| x in paused && x != v && paused[x].Preserve? && x in p'.tables && b in OnDevice(p'.tables[x], GPU);
      assert p'.tables[x] == p.tables[x];
    }
    SubsetSize(left, all - mine);
    SubsetSize(mine, all);
    assert all == mine + (all - mine);
  }

  /** Whether restarting swapped requests from the back of `l`, until `need` CPU blocks are free, meets
      one that the combined phase is done with. */
  ghost predicate Stuck(s: Sys, l: seq<Id>, free: nat, need: int) {
    l != [] && free < need && (var x := l[|l| - 1];
      (x !in s.paused && s.split && Stale(s.place, x)) ||
      Stuck(s, l[..|l| - 1], free + |TableOf(s.pool.tables, x)|, need))
  }

  /** A request of the swapped queue is one that the combined phase is done with. */
  ghost predicate Stranded(s: Sys) {
    s.split && exists x :: x in s.swapped && Stale(s.place, x)
  }

  lemma StrandedSplit(s: Sys)
    ensures Stranded(s) ==> s.split
  {
  }

  lemma StrandedBy(s: Sys, l: seq<Id>)
    requires Discards(s, l) && l != [] && l[|l| - 1] !in s.paused && s.split && Stale(s.place, l[|l| - 1])
    ensures Stranded(s)
  {
    assert l[|l| - 1] in l;
  }

  /** The requests in `l` are as they were. */
  ghost predicate Untouched(s0: Sys, s: Sys, l: seq<Id>) {
    s.split == s0.split && forall y {:trigger UntouchedAt(s0, s, y)} :: y in l ==> UntouchedAt(s0, s, y)
  }

  ghost predicate UntouchedAt(s0: Sys, s: Sys, y: Id) {
    && (y in s.paused <==> y in s0.paused) && Lookup(s.place, y) == Lookup(s0.place, y)
    && TableOf(s.pool.tables, y) == TableOf(s0.pool.tables, y)
  }

  lemma UntouchedSelf(s: Sys, l: seq<Id>)
    ensures Untouched(s, s, l)
  {
  }

  lemma SparedUntouched(s0: Sys, s: Sys, s': Sys, log: Log, l: seq<Id>)
    requires Sound(s, log) && l != [] && Untouched(s0, s, l) && Discards(s, l)
    requires Spared(s, s', l[|l| - 1]) && s'.split == s.split
    ensures Untouched(s0, s', l[..|l| - 1])
    ensures TableOf(s.pool.tables, l[|l| - 1]) == TableOf(s0.pool.tables, l[|l| - 1])
    ensures |s'.pool.cpu.free| == |s.pool.cpu.free| + |TableOf(s0.pool.tables, l[|l| - 1])|
  {
    hide Kept, NoMore, SameArenas, PoolOk, Exclusive, Sound;
    var n := |l| - 1;
    assert UntouchedAt(s0, s, l[n]);
    forall y | y in l[..n] ensures UntouchedAt(s0, s', y) {
      assert UntouchedAt(s0, s, y) && y != l[n];
      DiscardKnown(s, log, l, y);
      assert SameAt(s, s', y);
    }
  }

  lemma DiscardKnown(s: Sys, log: Log, l: seq<Id>, y: Id)
    requires Sound(s, log) && Discards(s, l) && y in l
    ensures y in s.place && y in s.data
  {
  }

  /** The requests in `gone` lost their blocks, and the others are as they were. */
  ghost predicate OnlyLost(s0: Sys, s: Sys, gone: seq<Id>) {
    && s0.data.Keys == s0.place.Keys == s.place.Keys == s.data.Keys
    && forall x {:trigger LostAt(s0, s, gone, x)} :: x in s0.place ==> LostAt(s0, s, gone, x)
  }

  ghost predicate LostAt(s0: Sys, s: Sys, gone: seq<Id>, x: Id)
    requires x in s0.place && x in s0.data && x in s.place && x in s.data
  {
    if x in gone then x !in s.pool.tables else SameAt(s0, s, x)
  }

  lemma OnlyLostSelf(s: Sys, l: Log)
    requires Sound(s, l)
    ensures OnlyLost(s, s, [])
  {
    hide PoolOk, Exclusive, Refines, Journal, AllGood, Queues;
  }

  lemma OneMoreLost(s0: Sys, s: Sys, s': Sys, discards: seq<Id>, n: nat)
    requires NoDup(discards) && n < |discards|
    requires OnlyLost(s0, s, discards[n + 1..]) && Spared(s, s', discards[n])
    ensures OnlyLost(s0, s', discards[n..])
  {
    hide Kept, NoMore, SameArenas, PoolOk, Exclusive;
    assert discards[n..] == [discards[n]] + discards[n + 1..];
    forall x | x in s0.place ensures LostAt(s0, s', discards[n..], x) {
      assert LostAt(s0, s, discards[n + 1..], x);
      if x != discards[n] {
        assert SameAt(s, s', x);
      }
    }
  }

  lemma NotStuck(s: Sys, l: seq<Id>, free: nat, need: int)
    requires l == [] || need <= free
    ensures !Stuck(s, l, free, need)
  {
  }

  /** One step of the loop that makes room. */
  lemma StuckNext(s0: Sys, s: Sys, l: seq<Id>, free: nat, need: int)
    requires l != [] && free < need && Untouched(s0, s, l)
    requires !(l[|l| - 1] !in s.paused && s.split && Stale(s.place, l[|l| - 1]))
    ensures Stuck(s0, l, free, need) <==> Stuck(s0, l[..|l| - 1], free + |TableOf(s.pool.tables, l[|l| - 1])|, need)
  {
    var x := l[|l| - 1];
    assert UntouchedAt(s0, s, x);
    assert Stale(s.place, x) <==> Stale(s0.place, x);
  }

  lemma StuckHere(s0: Sys, s: Sys, l: seq<Id>, free: nat, need: int)
    requires l != [] && free < need && Untouched(s0, s, l)
    requires l[|l| - 1] !in s.paused && s.split && Stale(s.place, l[|l| - 1])
    ensures Stuck(s0, l, free, need)
  {
    var x := l[|l| - 1];
    assert UntouchedAt(s0, s, x);
    assert Stale(s.place, x) <==> Stale(s0.place, x);
  }

  lemma VictimRoomy(s: Sys, v: Id)
    requires Roomy(s.pool, s.paused) && Victim(s, v, AtPaused) && v in s.pool.tables
    ensures |OnDevice(s.pool.tables[v], GPU)| <= |s.pool.cpu.free|
  {
    RoomyVictim(s.pool, s.paused, v);
  }

  lemma VictimSplit(s: Sys, v: Id, p: Place)
    requires Victim(s, v, p)
    ensures s.split ==> p.AtPaused?
  {
  }

  /** Requests that are not paused are as they were. */
  ghost predicate Undisturbed(s: Sys, s': Sys) {
    forall x :: x in s.place && !s.place[x].AtPaused? && x in s.data ==>
      x in s'.place && s'.place[x] == s.place[x] && x in s'.data && s'.data[x] == s.data[x]
  }

  lemma UndisturbedSelf(s: Sys)
    ensures Undisturbed(s, s)
  {
  }

  lemma UndisturbedTrans(s: Sys, s1: Sys, s2: Sys)
    requires Undisturbed(s, s1) && Undisturbed(s1, s2)
    ensures Undisturbed(s, s2)
  {
  }

  lemma UndisturbedOthers(s: Sys, s': Sys, v: Id)
    requires OthersSame(s, s', v) && Victim(s, v, AtPaused)
    ensures Undisturbed(s, s')
  {
    forall x | x in s.place && !s.place[x].AtPaused? && x in s.data
      ensures x in s'.place && s'.place[x] == s.place[x] && x in s'.data && s'.data[x] == s.data[x]
    {
      assert SameAt(s, s', x);
    }
  }

  lemma UndisturbedDropped(s: Sys, s': Sys, v: Id)
    requires Dropped(s, s', v, AtPaused) && Victim(s, v, AtPaused)
    ensures Undisturbed(s, s')
  {
    UndisturbedOthers(s, s', v);
  }

  lemma UndisturbedRec(s: Sys, s': Sys, c: Id)
    requires Undisturbed(s, s') && c in s.place && c in s.data && !s.place[c].AtPaused?
    ensures c in s'.data && s'.data[c] == s.data[c]
  {
  }
}
