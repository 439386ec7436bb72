/** Concrete runs in which the source does not keep what it seems to promise. */
module Counterexamples {
  import opened Basics
  import opened Blocks
  import opened Sequences
  import opened Layouts
  import opened BlockManager
  import opened System
  import opened Memory
  import opened Steps
  import opened Preemption
  import opened CpuRooms
  import opened Rounds
  import opened Phases
  import opened Victims
  import opened Iterations
  import opened Outputs
  import opened Execution
  import opened Engine
  import opened Events
  import opened Accounting
  import opened Restarts

  // ---- A pending copy that loses its target

  /** Request `id`: two tokens, the first one cached, paused. */
  ghost function Paused(swapLength: int): SeqRec {
    SeqRec([7], [8], PausedApi, 0, 0, 0, swapLength, 1, 0, 0, 0)
  }

  ghost function Gpu(refs0: nat, free: seq<nat>): Arena {
    Arena(free, [refs0, 0, 1])
  }

  /** Request 0 was just paused by copying GPU block 1 to CPU block 0; requests 1 and 2 are paused in GPU
      blocks 0 and 2. */
  ghost function JustPaused(): Sys {
    Sys(1, 9, Pool(Gpu(1, [1]), Arena([], [1]),
                   map[0 := [Block(CPU, 0)], 1 := [Block(GPU, 0)], 2 := [Block(GPU, 2)]]),
        map[0 := Paused(1), 1 := Paused(0), 2 := Paused(0)], [], [], [], [],
        map[0 := Mode.Swap, 1 := Preserve, 2 := Preserve],
        map[0 := AtPaused, 1 := AtPaused, 2 := AtPaused], false)
  }

  /** The pool once request 0 is gone, and once request 1 was swapped out as well. */
  ghost function WithoutZero(): Pool {
    Pool(Gpu(1, [1]), Arena([0], [0]), map[1 := [Block(GPU, 0)], 2 := [Block(GPU, 2)]])
  }

  ghost function BothOut(): Pool {
    Pool(Gpu(0, [1, 0]), Arena([], [1]), map[1 := [Block(CPU, 0)], 2 := [Block(GPU, 2)]])
  }

  ghost function Start(): Mem {
    (x: Block) => map[0 := Tag(if x == Block(GPU, 1) then 0 else if x == Block(GPU, 2) then 2 else 1, 0)]
  }

  ghost function Intended(): Mem {
    (x: Block) => if x == Block(CPU, 0) then map[0 := Tag(0, 0)] else Start()(x)
  }

  ghost function OnePending(): Log {
    Log(Start(), Intended(), map[1 := 0], map[], false)
  }

  /** Request 0's call returns, and it is aborted before its block was copied. */
  ghost function Aborted(): Sys
    requires 0 in JustPaused().data && 0 in JustPaused().paused && 0 in Resumed(JustPaused(), 0, [9]).data
  {
    Departed(Resumed(JustPaused(), 0, [9]), 0, FinishedAborted, WithoutZero())
  }

  /** Both paused requests are to be swapped out, and keeping request 2 wastes more. */
  function Wastes(): Id -> Estimate {
    (x: Id) => Estimate(if x == 2 then 2.0 else 1.0, 3.0, Swap)
  }

  /** From a sound state, resuming and aborting request 0 and then running an iteration of the newer
      scheduler.  No request is queued, so the iteration only gives request 1 up, by a swap-out into the
      block that the abort freed.  That leaves the real cache with request 0's tokens in request 1's block:
      block 0 is copied before block 1. */
  lemma LostCopy() returns (s: Sys, s': Sys, l': Log)
    ensures Sound(JustPaused(), OnePending()) && Between(JustPaused(), [], [])
    ensures 0 in JustPaused().data && 0 in JustPaused().paused && 0 in Resumed(JustPaused(), 0, [9]).data
    ensures Tears(Resumed(JustPaused(), 0, [9]), OnePending(), AbortRequest(0))
    ensures s == Aborted() && Sound(s, OnePending()) && Victim(s, 1, AtPaused)
    ensures s.waiting == s.running == s.swapped == [] && !s.split
    ensures forall x :: x in [1] <==>
      x in s.paused && Candidate(V2, s.paused[x], Wastes()(x)) && !Worst(V2, s.paused, Wastes(), x)
    ensures Fates(V2, s.pool.tables, Wastes(), [1], |s.pool.cpu.free|, s.paused[1 := Swap])
    ensures OutStep(s, OnePending(), s', l', 1, map[0 := 0]) && 1 in s'.data && Sound(Parked(s', 1), l') && l'.clash
    ensures Parked(s', 1).paused == s.paused[1 := Swap]
    ensures s'.pool.tables.Keys <= s'.data.Keys && s'.b > 0
    ensures !Refines(s'.b, s'.pool.tables, s'.data, Landed(l'))
  {
    hide *;
    JustPausedSound();
    AbortedSound();
    AbortedQueues();
    s := Aborted();
    s' := s.(pool := BothOut());
    l' := LoggedOut(OnePending(), [Block(GPU, 0)], [Block(CPU, 0)], map[0 := 0]);
    OneGivenUp(s);
    SecondOut(s, s', l');
    VictimFields(s);
    OutParked(s, OnePending(), s', l', 1, map[0 := 0]);
    OutStepFields(s, OnePending(), s', l', 1, map[0 := 0]);
    ParkedFields(s');
    SecondLost(s, s', l');
  }

  lemma AbortedQueues()
    requires 0 in JustPaused().data && 0 in JustPaused().paused && 0 in Resumed(JustPaused(), 0, [9]).data
    ensures var s := Aborted();
      && s.waiting == s.running == s.swapped == [] && !s.split && s.paused == map[1 := Preserve, 2 := Preserve]
  {
  }

  lemma OneGivenUp(s: Sys)
    requires s.pool == WithoutZero() && s.paused == map[1 := Preserve, 2 := Preserve]
    ensures forall x :: x in [1] <==>
      x in s.paused && Candidate(V2, s.paused[x], Wastes()(x)) && !Worst(V2, s.paused, Wastes(), x)
    ensures Fates(V2, s.pool.tables, Wastes(), [1], |s.pool.cpu.free|, s.paused[1 := Swap])
  {
    hide OnDevice;
    assert Worst(V2, s.paused, Wastes(), 2);
    assert Wastes()(2).waste > Wastes()(1).waste;
    assert s.pool.tables[1] == [Block(GPU, 0)];
    CountPrefix([Block(GPU, 0)], 1);
    assert [1][..0] == [];
  }

  lemma ParkedFields(s: Sys)
    requires 1 in s.data && 1 in s.pool.tables
    ensures Parked(s, 1).paused == s.paused[1 := Swap]
  {
  }

  lemma VictimFields(s: Sys)
    requires Victim(s, 1, AtPaused)
    ensures 1 in s.place && 1 in s.data
  {
  }

  lemma JustPausedSound()
    ensures Sound(JustPaused(), OnePending()) && Between(JustPaused(), [], [])
    ensures 0 in JustPaused().data && 0 in JustPaused().paused && 0 in Resumed(JustPaused(), 0, [9]).data
    ensures Tears(Resumed(JustPaused(), 0, [9]), OnePending(), AbortRequest(0))
  {
    hide PoolOk, Exclusive, Refines, Journal, Good, Queues, Between, Tears;
    var s := JustPaused();
    FirstPool();
    FirstGood();
    assert GoodAt(s, 0) && GoodAt(s, 1) && GoodAt(s, 2);
    FirstLists();
    FirstMemory();
    TornAbort();
  }

  lemma FirstLists()
    ensures JustPaused().data.Keys == JustPaused().place.Keys && Queues(JustPaused()) && Between(JustPaused(), [], [])
  {
  }

  lemma TornAbort()
    ensures 0 in JustPaused().data && 0 in JustPaused().paused && 0 in Resumed(JustPaused(), 0, [9]).data
    ensures Tears(Resumed(JustPaused(), 0, [9]), OnePending(), AbortRequest(0))
  {
    var s, outs := JustPaused(), OnePending().outs;
    assert s.pool.tables[0][0] == Block(CPU, 0) && outs[1] == 0;
    assert 0 in outs.Values;
  }

  lemma FirstPool()
    ensures PoolOk(JustPaused().pool) && Exclusive(JustPaused().pool.tables)
  {
    hide PoolOk;
    ThreeOwned(JustPaused().pool);
  }

  lemma ThreeOwned(p: Pool)
    requires p.tables == map[0 := [Block(CPU, 0)], 1 := [Block(GPU, 0)], 2 := [Block(GPU, 2)]]
    requires p.gpu == Gpu(1, [1]) && p.cpu == Arena([], [1])
    ensures PoolOk(p)
  {
    assert p.tables[0][0] == Block(CPU, 0) && p.tables[1][0] == Block(GPU, 0) && p.tables[2][0] == Block(GPU, 2);
    forall b | p.Has(b) ensures p.Ref(b) == |Owners(p.tables, b)| {
      assert Owners(p.tables, b) ==
        if b.device.CPU? then {0} else if b.number == 0 then {1} else if b.number == 2 then {2} else {};
    }
  }

  lemma FirstGood()
    ensures Good(1, 9, Paused(1), Some([Block(CPU, 0)]), AtPaused, Some(Mode.Swap))
    ensures Good(1, 9, Paused(0), Some([Block(GPU, 0)]), AtPaused, Some(Preserve))
    ensures Good(1, 9, Paused(0), Some([Block(GPU, 2)]), AtPaused, Some(Preserve))
  {
    hide CeilDiv;
    OneBlock();
  }

  lemma OneBlock()
    ensures CeilDiv(1, 1) == 1
  {
  }

  lemma FirstMemory()
    ensures var s, l := JustPaused(), OnePending();
      Refines(s.b, s.pool.tables, s.data, l.now) && Journal(l, s.pool.tables, s.place)
  {
    hide Refines, Journal;
    FirstRows();
    FirstJournal();
  }

  lemma FirstRows()
    ensures var s := JustPaused(); Refines(s.b, s.pool.tables, s.data, Intended())
  {
    hide RowHolds, Intended, Start, Gpu, Paused;
    var s := JustPaused();
    assert s.pool.tables.Keys == {0, 1, 2} == s.data.Keys;
    forall x | x in s.pool.tables ensures RowHolds(s.pool.tables[x], x, 1, s.data[x].Cached(), Intended()) {
      FirstRowAt(x, s.pool.tables[x], s.data[x]);
    }
  }

  lemma FirstRowAt(x: Id, t: Table, d: SeqRec)
    requires x == 0 ==> t == [Block(CPU, 0)] && d == Paused(1)
    requires x == 1 ==> t == [Block(GPU, 0)] && d == Paused(0)
    requires x == 2 ==> t == [Block(GPU, 2)] && d == Paused(0)
    requires x < 3
    ensures RowHolds(t, x, 1, d.Cached(), Intended())
  {
    hide RowHolds, Intended, Start, Gpu;
    FirstCells();
    FirstRow(x, t[0]);
  }

  lemma FirstCells()
    ensures Intended()(Block(CPU, 0)) == map[0 := Tag(0, 0)] && Intended()(Block(GPU, 0)) == map[0 := Tag(1, 0)]
    ensures Intended()(Block(GPU, 2)) == map[0 := Tag(2, 0)]
  {
    assert Start()(Block(GPU, 0)) == map[0 := Tag(1, 0)] && Start()(Block(GPU, 2)) == map[0 := Tag(2, 0)];
    assert Intended()(Block(GPU, 0)) == Start()(Block(GPU, 0)) && Intended()(Block(GPU, 2)) == Start()(Block(GPU, 2));
  }

  lemma FirstRow(x: Id, b: Block)
    requires Intended()(b) == map[0 := Tag(x, 0)]
    ensures RowHolds([b], x, 1, 1, Intended())
  {
    hide Intended;
  }

  lemma FirstJournal()
    ensures Journal(OnePending(), JustPaused().pool.tables, JustPaused().place)
  {
    hide Apart, Unread, Replays;
    FirstReplays();
    FirstApart();
  }

  lemma FirstApart()
    ensures var s, l := JustPaused(), OnePending(); Apart(l, s.pool.tables, s.place) && Unread(l, s.pool.tables)
  {
    var s := JustPaused();
    assert s.pool.tables[0][0] == Block(CPU, 0) && s.pool.tables[1][0] == Block(GPU, 0);
    assert s.pool.tables[2][0] == Block(GPU, 2);
  }

  lemma FirstReplays()
    ensures Replays(OnePending())
  {
    var l := OnePending();
    assert l.outs[1] == 0 && 0 in l.outs.Values;
    assert forall x: Block :: x.device.CPU? && x.number !in l.outs.Values ==> l.now(x) == l.start(x);
  }

  lemma AbortedSound()
    requires 0 in JustPaused().data && 0 in JustPaused().paused && 0 in Resumed(JustPaused(), 0, [9]).data
    requires Sound(JustPaused(), OnePending())
    ensures Sound(Aborted(), OnePending()) && Victim(Aborted(), 1, AtPaused)
    ensures Aborted().b == 1 && Aborted().pool == WithoutZero() && 1 in Aborted().data && Aborted().data[1] == Paused(0)
    ensures Aborted().data.Keys == {0, 1, 2}
  {
    hide Sound, PoolOk;
    var s1 := Resumed(JustPaused(), 0, [9]);
    ResumedSound(JustPaused(), OnePending(), 0, [9]);
    SecondPool();
    assert WithoutZero().tables == s1.pool.tables - {0};
    LeftSound(s1, OnePending(), 0, FinishedAborted, WithoutZero());
  }

  lemma SecondPool()
    ensures PoolOk(WithoutZero())
  {
    var p := WithoutZero();
    forall b | p.Has(b) ensures p.Ref(b) == |Owners(p.tables, b)| {
      assert p.tables[1][0] == Block(GPU, 0) && p.tables[2][0] == Block(GPU, 2);
      assert Owners(p.tables, b) == if b == Block(GPU, 0) then {1} else if b == Block(GPU, 2) then {2} else {};
    }
  }

  lemma ThirdPool()
    ensures PoolOk(BothOut()) && Exclusive(BothOut().tables)
  {
    var p := BothOut();
    forall b | p.Has(b) ensures p.Ref(b) == |Owners(p.tables, b)| {
      assert p.tables[1][0] == Block(CPU, 0) && p.tables[2][0] == Block(GPU, 2);
      assert Owners(p.tables, b) == if b == Block(CPU, 0) then {1} else if b == Block(GPU, 2) then {2} else {};
    }
  }

  lemma SecondMoved()
    ensures Moved(WithoutZero().tables, [Block(GPU, 0)], [Block(CPU, 0)], GPU, map[0 := 0])
  {
    var tables, t, u := WithoutZero().tables, [Block(GPU, 0)], [Block(CPU, 0)];
    assert tables[1] == t && Block(CPU, 0) !in t;
    assert MovedEntry(tables, t[0], u[0], GPU, map[0 := 0]);
    assert t[0] == Block(GPU, 0) && u[0] != t[0];
  }

  lemma SecondOut(s: Sys, s': Sys, l': Log)
    requires s.pool == WithoutZero() && s' == s.(pool := BothOut()) && s.data.Keys == {0, 1, 2}
    requires l' == LoggedOut(OnePending(), [Block(GPU, 0)], [Block(CPU, 0)], map[0 := 0])
    ensures OutStep(s, OnePending(), s', l', 1, map[0 := 0]) && l'.clash && 1 in s'.data
  {
    hide PoolOk, MoveCells;
    ThirdPool();
    assert OnePending().outs[1] == 0;
    assert Beaten(OnePending().outs, 0, 0);
    SecondMoved();
    assert s'.pool.tables == s.pool.tables[1 := [Block(CPU, 0)]];
  }

  lemma SecondLost(s: Sys, s': Sys, l': Log)
    requires Sound(s, OnePending()) && s.b == 1 && s.pool == WithoutZero() && s' == s.(pool := BothOut())
    requires 1 in s.data && s.data[1] == Paused(0) && Victim(s, 1, AtPaused)
    requires l' == LoggedOut(OnePending(), [Block(GPU, 0)], [Block(CPU, 0)], map[0 := 0]) && l'.clash
    requires OutStep(s, OnePending(), s', l', 1, map[0 := 0])
    ensures s'.pool.tables.Keys <= s'.data.Keys && s'.b > 0
    ensures !Refines(s'.b, s'.pool.tables, s'.data, Landed(l'))
  {
    hide *;
    SecondReady(s, s', l');
    SwapOutLands(s, OnePending(), 1, [Block(CPU, 0)], map[0 := 0]);
  }

  lemma SecondReady(s: Sys, s': Sys, l': Log)
    requires Sound(s, OnePending()) && s.b == 1 && s.pool == WithoutZero() && s' == s.(pool := BothOut())
    requires 1 in s.data && s.data[1] == Paused(0) && Victim(s, 1, AtPaused)
    requires l' == LoggedOut(OnePending(), [Block(GPU, 0)], [Block(CPU, 0)], map[0 := 0])
    requires OutStep(s, OnePending(), s', l', 1, map[0 := 0])
    ensures Outgoing(s, OnePending(), 1, [Block(CPU, 0)], map[0 := 0])
    ensures Clashes(OnePending(), map[0 := 0])
    ensures s.pool.tables[1 := [Block(CPU, 0)]] == s'.pool.tables && s'.data == s.data && s'.b == s.b > 0
    ensures s.pool.tables[1] == [Block(GPU, 0)]
  {
    hide Sound, PoolOk, Exclusive, Refines, MoveCells, Moved, CeilDiv;
    OneBlock();
    OneBeaten();
  }

  lemma OneBeaten()
    ensures Clashes(OnePending(), map[0 := 0])
  {
    var m: map<nat, nat> := map[0 := 0];
    assert OnePending().outs[1] == 0;
    assert Beaten(OnePending().outs, 0, m[0]);
  }

  // ---- A request that is ignored with its blocks

  /** A leak, step by step: a running request of two tokens, one of them cached, is the target of a
      `_schedule` call whose prompt limit is one.  Before it is ignored every block is accounted for,
      and afterwards the only block is lost. */
  lemma IgnoredRequestLeaks() returns (s: Sys, l: Log, r: Round)
    ensures Sound(s, l) && At(s, r) && r.cur == Some(0) && 0 in s.data && s.limit < s.data[0].Len()
    ensures |s.pool.gpu.free| + |Held(s, GPU, false)| == |s.pool.gpu.refs| == 1
    ensures Inv(Ignored(s, 0)) && |s.pool.gpu.free| + |Held(Ignored(s, 0), GPU, false)| == 0
  {
    hide *;
    s, l, r := TooLong(), Log(Filled(), Filled(), map[], map[], false), Opening(QRunning, []).(cur := Some(0));
    TooLongSound();
    TooLongFields();
    Resettled(s, l, Ignored(s, 0), 0, AtDone, r);
    SoundInv(s, l);
    SoundInv(Ignored(s, 0), l);
    IgnoringLoses(s, 0, GPU);
    TooLongHeld();
  }

  ghost function TooLong(): Sys {
    Sys(1, 1, Pool(Arena([], [1]), Arena([], []), map[0 := [Block(GPU, 0)]]),
        map[0 := SeqRec([7], [8], Status.Running, 0, 0, 0, 0, 1, 0, 0, 0)],
        [], [], [], [], map[], map[0 := AtCurrent], false)
  }

  /** Every block holds the first token of request 0. */
  ghost function Filled(): Mem {
    (x: Block) => map[0 := Tag(0, 0)]
  }

  lemma TooLongSound()
    ensures var l, r := Log(Filled(), Filled(), map[], map[], false), Opening(QRunning, []).(cur := Some(0));
      Sound(TooLong(), l) && At(TooLong(), r)
  {
    hide PoolOk, Exclusive, Refines, Journal, Inv, Phase;
    TooLongInv();
    TooLongMemory();
    TooLongPhase();
  }

  lemma TooLongInv()
    ensures Inv(TooLong()) && TooLong().b > 0 && TooLong().pool.tables.Keys <= TooLong().data.Keys
  {
    hide PoolOk, Exclusive, Good, Queues;
    var s := TooLong();
    LeakPool(s.pool);
    TooLongGood();
    TooLongQueues();
    assert GoodAt(s, 0);
  }

  lemma TooLongGood()
    ensures var s := TooLong(); Good(1, 1, s.data[0], Some([Block(GPU, 0)]), AtCurrent, None)
  {
    CeilDivBounds(1, 1);
    assert CeilDiv(1, 1) == 1;
  }

  lemma TooLongQueues()
    ensures Queues(TooLong())
  {
  }

  lemma TooLongMemory()
    ensures var s, l := TooLong(), Log(Filled(), Filled(), map[], map[], false);
      Refines(s.b, s.pool.tables, s.data, l.now) && Journal(l, s.pool.tables, s.place)
  {
    var s := TooLong();
    assert RowHolds(s.pool.tables[0], 0, 1, 1, Filled());
  }

  lemma TooLongPhase()
    ensures var s, r := TooLong(), Opening(QRunning, []).(cur := Some(0)); At(s, r)
  {
  }

  lemma TooLongFields()
    ensures var s, r := TooLong(), Opening(QRunning, []).(cur := Some(0));
      && r.cur == Some(0) && 0 in s.data && 0 in s.place && s.place[0].AtCurrent? && s.limit < s.data[0].Len()
      && s.data.Keys == s.place.Keys && s.pool.tables.Keys <= s.data.Keys && s.pool.gpu == Arena([], [1])
      && Ignored(s, 0) == s.(place := s.place[0 := AtDone], data := s.data[0 := s.data[0].(status := FinishedIgnored)])
      && s.pool.tables.Keys <= Ignored(s, 0).data.Keys
  {
  }

  lemma TooLongHeld()
    ensures TooLong().pool.tables.Keys <= TooLong().data.Keys
    ensures Held(TooLong(), GPU, false) == {0} && |OnDevice(TableOf(TooLong().pool.tables, 0), GPU)| == 1
  {
    var s := TooLong();
    assert s.pool.tables[0][0] == Block(GPU, 0);
    assert HeldBy(s, Block(GPU, 0), false);
    assert OnDevice(TableOf(s.pool.tables, 0), GPU) == {Block(GPU, 0)};
  }

  lemma LeakPool(p: Pool)
    requires p == Pool(Arena([], [1]), Arena([], []), map[0 := [Block(GPU, 0)]])
    ensures PoolOk(p) && Exclusive(p.tables)
  {
    forall b | p.Has(b) ensures p.Ref(b) == |Owners(p.tables, b)| {
      assert b == Block(GPU, 0);
      assert b in p.tables[0] by { assert p.tables[0][0] == b; }
      assert Owners(p.tables, b) == {0};
    }
  }

  // ---- A scheduled request that is restarted

  /** The combined phase: request 0, swapped, is already scheduled with one block to swap in and one token
      to forward; the waiting request 1 is in hand and needs two GPU blocks, of which none is free; request
      2 is paused in two GPU blocks, and one CPU block is free. */
  ghost function MidPhase(): Sys {
    Sys(1, 9, MidPool(),
        map[0 := SeqRec([7], [8], Status.Running, 0, 0, 0, 1, 1, 0, 1, 1),
          1 := SeqRec([5, 6], [], Status.Waiting, 0, 0, 0, 0, 2, 0, 0, 2),
            2 := SeqRec([3, 4], [9], PausedApi, 0, 0, 0, 0, 1, 0, 0, 0)],
        [1], [], [0], [], map[2 := Preserve], map[0 := AtScheduled, 1 := AtCurrent, 2 := AtPaused], true)
  }

  ghost function MidPool(): Pool {
    Pool(Arena([], [1, 1, 1, 1]), Arena([0], [0]),
         map[0 := [Block(GPU, 0), Block(GPU, 1)], 2 := [Block(GPU, 2), Block(GPU, 3)]])
  }

  ghost function MidPoolAfter(): Pool {
    Pool(Arena([0, 1], [0, 0, 1, 1]), Arena([0], [0]), map[2 := [Block(GPU, 2), Block(GPU, 3)]])
  }

  ghost function MidRound(): Round {
    Opening(QCombined, [2]).(scheduled := [0], tokens := 1, cur := Some(1))
  }

  ghost function MidStart(): Mem {
    (x: Block) => map[0 := if x == Block(CPU, 0) then Tag(0, 0) else Tag(2, if x == Block(GPU, 3) then 1 else 0)]
  }

  ghost function MidNow(): Mem {
    (x: Block) => if x == Block(GPU, 0) then map[0 := Tag(0, 0)] else MidStart()(x)
  }

  ghost function MidLog(): Log {
    Log(MidStart(), MidNow(), map[], map[0 := 0], false)
  }

  /** Request 0 was restarted, then request 2 was given up, then request 1 was scheduled. */
  ghost function MidRestarted(): Stage {
    Stage(RestartedSwapped(MidPhase(), 0, MidPoolAfter()), MidLog(), MidRound())
  }

  ghost function MidGivenUp(): Stage {
    var s := MidRestarted().s;
    Stage(s.(pool := MidPoolEmpty(), data := s.data[2 := s.data[2].Restarted()], paused := s.paused[2 := Recompute]),
          MidLog(), MidRound().(pre := []))
  }

  ghost function MidTaken(): Stage {
    var s := MidGivenUp().s;
    Stage(s.(pool := MidPoolTaken(), data := s.data[1 := s.data[1].(status := Status.Running)],
             place := s.place[1 := AtScheduled]),
          LoggedIn(MidLog(), [], [Block(GPU, 3), Block(GPU, 2)], map[]),
          MidRound().(pre := [], scheduled := [0, 1], tokens := 3, cur := None))
  }

  ghost function MidPoolEmpty(): Pool {
    Pool(Arena([0, 1, 2, 3], [0, 0, 0, 0]), Arena([0], [0]), map[])
  }

  ghost function MidPoolTaken(): Pool {
    Pool(Arena([0, 1], [0, 0, 1, 1]), Arena([0], [0]), map[1 := [Block(GPU, 3), Block(GPU, 2)]])
  }

  ghost function MidStages(): seq<Stage> {
    [Stage(MidPhase(), MidLog(), MidRound()), MidRestarted(), MidGivenUp(), MidTaken()]
  }

  ghost function MidMoves(): seq<Move> {
    [RestartingQueued(0), GivingUp, Taking(map[])]
  }

  /** Making room for request 1 asks the CPU for two blocks.  Only request 0 can be restarted for them; that
      is not enough, so request 2 is given up, and request 1 is scheduled.  The phase then leaves request 0
      in the batch although it waits and owns nothing. */
  lemma RestartedInBatch()
    ensures SoundAt(MidStages()[0]) && Course(MidStages(), MidMoves()) && MidRound().cur == Some(1)
    ensures Need(MidPhase(), 1, 0, 2) == 2 && 2 in MidPhase().pool.tables && 0 in MidPhase().data
    ensures |OnDevice(MidPhase().pool.tables[2], GPU)| == 2 && Stuck(MidPhase(), MidPhase().swapped, 1, 2)
    ensures !Roomy(MidPhase().pool, MidPhase().paused)
    ensures MidTaken().r.scheduled == [0, 1] && MidTaken().s.paused == map[2 := Recompute]
    ensures 0 in MidTaken().s.data && MidTaken().s.data[0].status.Waiting? && 0 !in MidTaken().s.pool.tables
    ensures !Inv(Ended(MidStages()[3]))
  {
    hide *;
    MidSound();
    MidStuck();
    MidPools();
    MidFields();
    MidCourse();
    MidEnd();
    if Roomy(MidPhase().pool, MidPhase().paused) {
      RoomyVictim(MidPhase().pool, MidPhase().paused, 2);
    }
    StageFrom(MidStages()[0]);
    RestartInCombinedPhase(MidStages(), MidMoves(), 0);
  }

  lemma MidCourse()
    ensures Course(MidStages(), MidMoves())
  {
    hide Makes, MidRestarted, MidGivenUp, MidTaken, MidPhase, MidLog, MidRound;
    MidStepOne();
    MidStepTwo();
    MidStepThree();
  }

  lemma MidStepOne()
    ensures Makes(Stage(MidPhase(), MidLog(), MidRound()), RestartingQueued(0), MidRestarted())
  {
    hide PoolOk, MidLog, Remove;
    MidSecond();
    assert MidPoolAfter().tables == MidPool().tables - {0};
  }

  lemma MidStepTwo()
    ensures Makes(MidRestarted(), GivingUp, MidGivenUp())
  {
    hide PoolOk, MidLog, Remove;
    MidThird();
    assert MidPoolEmpty().tables == MidPoolAfter().tables - {2};
    assert MidRound().pre == [2] && MidRound().pre[..0] == [];
  }

  lemma MidStepThree()
    ensures Makes(MidGivenUp(), Taking(map[]), MidTaken())
  {
    hide PoolOk, MidLog, MidGivenUp, AllocStep, Planned, LoggedIn, MidPoolTaken, MidPhase;
    MidAlloc();
    MidHand();
    assert [0] + [1] == [0, 1];
  }

  ghost function MidTarget(): SeqRec {
    SeqRec([5, 6], [], Status.Waiting, 0, 0, 0, 0, 2, 0, 0, 2)
  }

  lemma MidHand()
    ensures var g := MidGivenUp();
      && g.l == MidLog() && g.r == MidRound().(pre := []) && 1 in g.s.data && g.s.data[1] == MidTarget()
      && Planned(MidTarget())
  {
    hide MidPhase, MidLog, MidRound, MidPool, MidPoolAfter, MidPoolEmpty, RestartedSwapped, Planned, MidTarget;
    MidTargetIs();
    RestartedSwappedFields(MidPhase(), 0, MidPoolAfter());
    MidTargetPlanned();
  }

  lemma MidTargetPlanned()
    ensures Planned(MidTarget())
  {
    FreshNeed(MidTarget());
  }

  lemma MidTargetIs()
    ensures var d := MidPhase().data; 0 in d && 1 in d && 2 in d && d[1] == MidTarget()
  {
    hide MidPool;
  }

  lemma MidAlloc()
    ensures var s := MidGivenUp().s;
      AllocStep(s, MidLog(), s.(pool := MidPoolTaken()), MidTaken().l, 1, map[])
  {
    hide PoolOk, MidLog, Remove, PendingLayout, Moved, LoggedIn;
    MidFourth();
    var s, u := MidGivenUp().s, [Block(GPU, 3), Block(GPU, 2)];
    assert MidPoolTaken().tables == s.pool.tables[1 := u] && TableOf(s.pool.tables, 1) == [];
    MidLaidOut(s.data[1], u);
    MidGrown(s.pool.tables, u);
  }

  lemma MidLaidOut(d: SeqRec, u: Table)
    requires d == SeqRec([5, 6], [], Status.Waiting, 0, 0, 0, 0, 2, 0, 0, 2) && u == [Block(GPU, 3), Block(GPU, 2)]
    ensures PendingLayout(1, d, u)
  {
    hide CeilDiv;
    CeilSmall();
  }

  lemma MidGrown(tables: map<Id, Table>, u: Table)
    requires tables == map[] && u == [Block(GPU, 3), Block(GPU, 2)]
    ensures Moved(tables, [], u, CPU, map[])
  {
  }

  lemma MidEnd()
    ensures MidStages()[3] == MidTaken() && MidMoves()[0] == RestartingQueued(0)
    ensures MidStages()[0] == Stage(MidPhase(), MidLog(), MidRound()) && MidTaken().r.cur.None?
    ensures MidTaken().r.scheduled == [0, 1] && MidTaken().s.paused == map[2 := Recompute]
    ensures 0 in MidTaken().s.data && MidTaken().s.data[0].status.Waiting? && 0 !in MidTaken().s.pool.tables
    ensures |MidMoves()| == 3 && |MidStages()| == 4
  {
    hide MidLog, LoggedIn;
  }

  lemma MidThird()
    ensures PoolOk(MidPoolEmpty())
  {
    var p := MidPoolEmpty();
    forall b | p.Has(b) ensures p.Ref(b) == |Owners(p.tables, b)| {
      assert Owners(p.tables, b) == {};
    }
  }

  lemma MidFourth()
    ensures PoolOk(MidPoolTaken()) && Exclusive(MidPoolTaken().tables)
  {
    var p := MidPoolTaken();
    assert p.tables[1][0] == Block(GPU, 3) && p.tables[1][1] == Block(GPU, 2);
    forall b | p.Has(b) ensures p.Ref(b) == |Owners(p.tables, b)| {
      assert Owners(p.tables, b) == if b.device.CPU? || b.number < 2 then {} else {1};
    }
  }

  lemma MidFields()
    ensures var s, r := MidPhase(), MidRound();
      && r.cur == Some(1) && r.q.QCombined? && 0 in s.data && 0 !in s.combined && 0 !in r.delayed
      && 2 in s.paused && s.paused[2].Preserve? && |s.pool.cpu.free| == 1
  {
  }

  lemma MidStuck()
    ensures Need(MidPhase(), 1, 0, 2) == 2 && 2 in MidPhase().pool.tables
    ensures |OnDevice(MidPhase().pool.tables[2], GPU)| == 2 && Stuck(MidPhase(), MidPhase().swapped, 1, 2)
  {
    hide CeilDiv, PoolOk, OnDevice, Stuck, Need;
    MidFirst();
    PoolParts(MidPool(), 2);
    CountPrefix(MidPool().tables[2], 2);
    MidNeed();
    MidTail();
  }

  lemma MidNeed()
    ensures Need(MidPhase(), 1, 0, 2) == 2
  {
    hide MemoryRequirement, Planned;
    var s := MidPhase();
    assert 1 in s.data && s.b == 1;
    FreshNeed(s.data[1].Populate(0, 0, 2));
  }

  lemma FreshNeed(d: SeqRec)
    requires d == SeqRec([5, 6], [], Status.Waiting, 0, 0, 0, 0, 2, 0, 0, 2)
    ensures Planned(d) && MemoryRequirement(d, 1) == 2
  {
    hide CeilDiv;
    CeilSmall();
    assert d.Cached() == 0;
  }

  lemma MidTail()
    ensures Stuck(MidPhase(), MidPhase().swapped, 1, 2)
  {
    var s := MidPhase();
    assert s.swapped[|s.swapped| - 1] == 0 && 0 !in s.paused && s.place[0] == AtScheduled;
  }

  lemma CeilSmall()
    ensures CeilDiv(0, 1) == 0 && CeilDiv(1, 1) == 1 && CeilDiv(2, 1) == 2
  {
  }

  lemma MidPools()
    ensures PoolOk(MidPool()) && Exclusive(MidPool().tables) && PoolOk(MidPoolAfter())
  {
    MidFirst();
    MidSecond();
  }

  lemma MidFirst()
    ensures PoolOk(MidPool()) && Exclusive(MidPool().tables)
  {
    var p := MidPool();
    assert p.tables[0][0] == Block(GPU, 0) && p.tables[0][1] == Block(GPU, 1);
    assert p.tables[2][0] == Block(GPU, 2) && p.tables[2][1] == Block(GPU, 3);
    forall b | p.Has(b) ensures p.Ref(b) == |Owners(p.tables, b)| {
      assert Owners(p.tables, b) == if b.device.CPU? then {} else if b.number < 2 then {0} else {2};
    }
  }

  lemma MidSecond()
    ensures PoolOk(MidPoolAfter())
  {
    var p := MidPoolAfter();
    assert p.tables[2][0] == Block(GPU, 2) && p.tables[2][1] == Block(GPU, 3);
    forall b | p.Has(b) ensures p.Ref(b) == |Owners(p.tables, b)| {
      assert Owners(p.tables, b) == if b.device.CPU? || b.number < 2 then {} else {2};
    }
  }

  lemma MidSound()
    ensures Sound(MidPhase(), MidLog()) && At(MidPhase(), MidRound())
  {
    hide PoolOk, Exclusive, Refines, Journal, Traced, Good, Queues, Phase, BatchTokens;
    var s := MidPhase();
    MidFirst();
    MidGood();
    MidQueues();
    MidMemory();
    MidJournal();
    MidTraced();
    assert GoodAt(s, 0) && GoodAt(s, 1) && GoodAt(s, 2);
    MidAt();
  }

  lemma MidGood()
    ensures var s := MidPhase();
      && Good(1, 9, s.data[0], Some(s.pool.tables[0]), AtScheduled, None)
      && Good(1, 9, s.data[1], None, AtCurrent, None)
      && Good(1, 9, s.data[2], Some(s.pool.tables[2]), AtPaused, Some(Preserve))
  {
    hide CeilDiv, Good, GpuPrefix;
    MidGoodBatch();
    MidGoodTarget();
    MidGoodPaused();
  }

  lemma MidGoodBatch()
    ensures Good(1, 9, MidPhase().data[0], Some(MidPhase().pool.tables[0]), AtScheduled, None)
  {
    hide CeilDiv;
    CeilSmall();
  }

  lemma MidGoodTarget()
    ensures Good(1, 9, MidPhase().data[1], None, AtCurrent, None)
  {
    hide CeilDiv;
    CeilSmall();
  }

  lemma MidGoodPaused()
    ensures Good(1, 9, MidPhase().data[2], Some(MidPhase().pool.tables[2]), AtPaused, Some(Preserve))
  {
    hide CeilDiv;
    CeilSmall();
  }

  lemma MidQueues()
    ensures MidPhase().data.Keys == MidPhase().place.Keys && Queues(MidPhase())
  {
    hide Registers, Lists, ListsRunning, ListsPaused;
    MidLists();
    MidRegisters();
  }

  lemma MidLists()
    ensures var s := MidPhase();
      && s.data.Keys == s.place.Keys && ListsRunning(s.running, s.place) && ListsPaused(s.paused, s.place)
      && Lists(s.combined, s.place, AtCombined) && s.split
  {
  }

  lemma MidRegisters()
    ensures MidPhase().data.Keys == MidPhase().place.Keys && Registers(MidPhase())
  {
    MidTargets();
    MidListed();
  }

  lemma MidTargets()
    ensures var s := MidPhase();
      && NoDup(s.waiting) && NoDup(s.swapped) && (forall x :: x in s.waiting ==> x !in s.swapped)
      && (forall x :: x in s.waiting || x in s.swapped ==> x in s.place && Target(s.place[x]))
      && (forall x :: x in s.waiting && x in s.place ==> !s.place[x].AtScheduled?)
  {
    var s := MidPhase();
    assert s.waiting == [1] && s.swapped == [0];
  }

  lemma MidListed()
    ensures var s := MidPhase();
      && (forall x :: x in s.place && Registered(s.place[x]) ==> x in s.waiting || x in s.swapped)
      && (forall x :: x in s.place && Unsettled(s.place[x]) ==> x == 1)
      && 1 in s.waiting && 1 !in s.swapped && 1 in s.data && s.data[1].status.Waiting?
      && (forall x :: x in s.place ==> !s.place[x].AtWaiting? && !s.place[x].AtSwapped?)
  {
    var s := MidPhase();
    assert s.waiting[0] == 1 && s.swapped[0] == 0;
  }

  lemma MidAt()
    ensures var s, r := MidPhase(), MidRound();
      Phase(s, r.q, r.scheduled, r.delayed, r.cur) && VictimList(s, r.pre, AtPaused) &&
        BatchTokens(s.data, r.scheduled) == r.tokens
  {
    hide Phase, VictimList, BatchTokens;
    MidLocals();
    MidTokens();
  }

  lemma MidTokens()
    ensures BatchTokens(MidPhase().data, MidRound().scheduled) == MidRound().tokens
  {
    assert BatchTokens(MidPhase().data, [0]) == Batched(MidPhase().data, 0) + BatchTokens(MidPhase().data, []);
  }

  lemma MidLocals()
    ensures var s, r := MidPhase(), MidRound();
      Phase(s, r.q, r.scheduled, r.delayed, r.cur) && VictimList(s, r.pre, AtPaused)
  {
    assert Victim(MidPhase(), 2, AtPaused);
  }

  lemma MidMemory()
    ensures var s := MidPhase(); Refines(s.b, s.pool.tables, s.data, MidNow())
  {
    var s := MidPhase();
    assert MidStart()(Block(GPU, 2)) == map[0 := Tag(2, 0)] && MidStart()(Block(GPU, 3)) == map[0 := Tag(2, 1)];
    assert MidNow()(Block(GPU, 2)) == MidStart()(Block(GPU, 2)) && MidNow()(Block(GPU, 3)) == MidStart()(Block(GPU, 3));
    assert BlockHolds(MidNow()(Block(GPU, 0)), 0, 0, 1, 1) && BlockHolds(MidNow()(Block(GPU, 1)), 0, 1, 1, 1);
    assert BlockHolds(MidNow()(Block(GPU, 2)), 2, 0, 1, 2) && BlockHolds(MidNow()(Block(GPU, 3)), 2, 1, 1, 2);
    MidRows();
  }

  lemma MidRows()
    requires BlockHolds(MidNow()(Block(GPU, 0)), 0, 0, 1, 1) && BlockHolds(MidNow()(Block(GPU, 1)), 0, 1, 1, 1)
    requires BlockHolds(MidNow()(Block(GPU, 2)), 2, 0, 1, 2) && BlockHolds(MidNow()(Block(GPU, 3)), 2, 1, 1, 2)
    ensures var s := MidPhase(); Refines(s.b, s.pool.tables, s.data, MidNow())
  {
    hide BlockHolds, MidNow;
    var s := MidPhase();
    assert RowHolds(s.pool.tables[0], 0, 1, 1, MidNow());
    assert RowHolds(s.pool.tables[2], 2, 1, 2, MidNow());
  }

  lemma MidTraced()
    ensures Traced(MidPhase(), MidLog())
  {
    hide MidStart, MidNow;
    var s, l := MidPhase(), MidLog();
    assert InBatch(s.place, 0) && Carries(s, l, 0, 0, 0);
    assert ReadAt(s, l, 0);
  }

  lemma MidJournal()
    ensures var s := MidPhase(); Journal(MidLog(), s.pool.tables, s.place)
  {
    hide Apart, Unread, Replays;
    MidReplays();
    MidApart();
  }

  lemma MidApart()
    ensures var s, l := MidPhase(), MidLog(); Apart(l, s.pool.tables, s.place) && Unread(l, s.pool.tables)
  {
    var s, l := MidPhase(), MidLog();
    assert s.pool.tables[0][0] == Block(GPU, 0);
    assert forall n :: n in l.ins.Values ==> n == 0;
  }

  lemma MidReplays()
    ensures Replays(MidLog())
  {
    var l := MidLog();
    assert l.ins[0] == 0 && 0 in l.ins.Values;
    assert forall n :: n in l.ins.Values ==> n == 0;
    assert forall x: Block :: x.device.GPU? && x.number !in l.ins.Values ==> l.now(x) == l.start(x);
  }
}
