/** What whole parts of one scheduling iteration keep, on values. */
module Iterations {
  import opened Basics
  import opened Blocks
  import opened Sequences
  import opened Layouts
  import opened BlockManager
  import opened System
  import opened Memory
  import opened Steps
  import opened Preemption
  import opened Rounds
  import opened Phases
  import opened Sorting

  /** Request conservation: no request appears or vanishes, no token changes, and exactly the
      requests in `ignored` leave the scheduler. */
  ghost predicate Passed(s: Sys, s': Sys, ignored: seq<Id>) {
    && s'.b == s.b && s'.limit == s.limit && s'.place.Keys == s.place.Keys && SameArenas(s.pool, s'.pool) &&
      SameText(s, s')
    && (forall x :: x in s.place && x in s'.place ==> (s'.place[x].AtDone? <==> s.place[x].AtDone? || x in ignored))
  }

  lemma PassedTrans(s: Sys, s1: Sys, s2: Sys, a: seq<Id>, b: seq<Id>)
    requires Passed(s, s1, a) && Passed(s1, s2, b)
    ensures Passed(s, s2, a + b)
  {
  }

  lemma PassedThen(s: Sys, s1: Sys, s2: Sys)
    requires Passed(s, s1, []) && Passed(s1, s2, [])
    ensures Passed(s, s2, [])
  {
  }

  lemma PassedSelf(s: Sys)
    ensures Passed(s, s, [])
  {
  }

  lemma OnwardPassed(s: Sys, r: Round, s': Sys, r': Round)
    requires Onward(s, r, s', r') && r.ignored == []
    ensures Passed(s, s', r'.ignored)
  {
  }

  lemma OnwardQueue(s: Sys, r: Round, s': Sys, r': Round)
    requires Onward(s, r, s', r')
    ensures r'.q == r.q
  {
  }

  lemma NothingMore(s: seq<Id>)
    ensures s + [] == s && [] + s == s
  {
  }

  /** Settling places is a matter of the batch, not of who is left. */
  lemma ReplacedPassed(s: Sys, s': Sys)
    requires s'.b == s.b && s'.limit == s.limit && s'.pool == s.pool
    requires s'.data == s.data && s'.place.Keys == s.place.Keys
    requires forall x :: x in s.place ==> (s'.place[x].AtDone? <==> s.place[x].AtDone?)
    ensures Passed(s, s', [])
  {
  }

  lemma ClosedPassed(s: Sys, l: Log, r: Round)
    requires Sound(s, l) && At(s, r) && r.cur.None? && !r.q.QCombined?
    ensures Passed(s, Closed(s, r), [])
  {
    hide Sound, At, Phase, Queues, Closed, Passed, Settled;
    SoundKeys(s, l);
    AtParts(s, r);
    forall x | x in s.place
      ensures x in Closed(s, r).place && (Closed(s, r).place[x].AtDone? <==> s.place[x].AtDone?)
    {
      ClosedDone(s, r, x);
    }
    ClosedPassedFrom(s, r);
  }

  lemma ClosedDone(s: Sys, r: Round, x: Id)
    requires Phase(s, r.q, r.scheduled, r.delayed, None) && !r.q.QCombined? && s.data.Keys == s.place.Keys && Queues(s)
    requires x in s.place
    ensures x in Closed(s, r).place && (Closed(s, r).place[x].AtDone? <==> s.place[x].AtDone?)
  {
    ClosedPlace(s, r, x);
  }

  lemma ClosedPassedFrom(s: Sys, r: Round)
    requires forall x :: x in s.place ==>
      x in Closed(s, r).place && (Closed(s, r).place[x].AtDone? <==> s.place[x].AtDone?)
    ensures Passed(s, Closed(s, r), [])
  {
    ReplacedPassed(s, Closed(s, r));
  }

  lemma PartedPassed(s: Sys, l: Log, r: Round)
    requires Sound(s, l) && At(s, r) && r.cur.None? && r.q.QCombined?
    ensures Passed(s, Parted(s, r), [])
  {
    hide Sound, At, Phase, Queues, Parted, Passed, Settled;
    SoundKeys(s, l);
    AtParts(s, r);
    PartedPlaces(s, r);
    PartedPassedFrom(s, r);
  }

  lemma PartedPassedFrom(s: Sys, r: Round)
    requires Parted(s, r).place.Keys == s.place.Keys
    requires forall x :: x in s.place ==> Parted(s, r).place[x] == PartedPlace(s, x)
    ensures Passed(s, Parted(s, r), [])
  {
    ReplacedPassed(s, Parted(s, r));
  }

  lemma CombinedPassed(s: Sys, l: Log, c: seq<Id>, pre: seq<Id>, batch: seq<Id>)
    requires Sound(s, l) && Between(s, pre, batch) && multiset(c) == multiset(s.swapped + s.waiting)
    ensures Passed(s, Combined(s, c), [])
  {
    CombinedMembers(s, c);
  }

  /** Steps that touch only paused and swapped requests keep the state between phases. */
  lemma KeptBetween(s: Sys, s': Sys, pre: seq<Id>, pre': seq<Id>, batch: seq<Id>)
    requires Between(s, pre, batch) && Kept(s, s', AtPaused) && SameArenas(s.pool, s'.pool)
    requires VictimList(s', pre', AtPaused)
    ensures Between(s', pre', batch) && Passed(s, s', [])
  {
    hide Kept, VictimList;
    KeptKeys(s, s');
    forall x | x in s.place
      ensures s'.place[x].AtBatch? <==> s.place[x].AtBatch?
      ensures Settled(s'.place[x]) && (s'.place[x].AtDone? <==> s.place[x].AtDone?)
      ensures s'.data[x].Remains(s.data[x])
    {
      KeptPlace(s, s', x);
    }
  }

  lemma KeptKeys(s: Sys, s': Sys)
    requires Kept(s, s', AtPaused)
    ensures s'.b == s.b && s'.limit == s.limit && s'.split == s.split
    ensures s'.place.Keys == s.place.Keys == s.data.Keys == s'.data.Keys
  {
  }

  lemma KeptPlace(s: Sys, s': Sys, x: Id)
    requires Kept(s, s', AtPaused) && x in s.place
    ensures s'.place[x].AtBatch? <==> s.place[x].AtBatch?
    ensures Settled(s.place[x]) ==> Settled(s'.place[x])
    ensures (s'.place[x].AtDone? <==> s.place[x].AtDone?) && s'.data[x].Remains(s.data[x])
  {
    assert KeptAt(s, s', x, AtPaused);
  }

  lemma SparedBetween(s: Sys, s': Sys, x: Id)
    requires Between(s, [], []) && Spared(s, s', x)
    ensures Between(s', [], []) && Passed(s, s', [])
  {
    KeptBetween(s, s', [], [], []);
  }

  function Reordered(s: Sys, q: Queue, t: seq<Id>): Sys {
    match q
    case QRunning => s.(running := t)
    case QSwapped => s.(swapped := t)
    case QWaiting => s.(waiting := t)
    case QCombined => s.(combined := t)
  }

  lemma ReorderedSound(s: Sys, l: Log, q: Queue, t: seq<Id>, pre: seq<Id>, batch: seq<Id>)
    requires Sound(s, l) && Between(s, pre, batch) && !q.QCombined? && multiset(t) == multiset(TargetsOf(s, q))
    ensures Sound(Reordered(s, q, t), l) && Between(Reordered(s, q, t), pre, batch)
    ensures Passed(s, Reordered(s, q, t), [])
  {
    hide PoolOk, Exclusive, Sound, GoodAt, Refines, Journal, VictimList, AllGood, Queues;
    var s' := Reordered(s, q, t);
    SoundKeys(s, l);
    ReorderedQueues(s, q, t);
    ReorderedGood(s, s');
    SoundAgain(s, l, s');
    ReorderedPre(s, s', pre);
  }

  lemma ReorderedQueues(s: Sys, q: Queue, t: seq<Id>)
    requires s.data.Keys == s.place.Keys && Queues(s) && !s.split
    requires !q.QCombined? && multiset(t) == multiset(TargetsOf(s, q))
    ensures Queues(Reordered(s, q, t))
  {
    PermutedMembers(TargetsOf(s, q), t);
  }

  lemma ReorderedGood(s: Sys, s': Sys)
    requires s.b > 0 && s.data.Keys == s.place.Keys && AllGood(s)
    requires s'.b == s.b && s'.limit == s.limit && s'.data == s.data
    requires s'.place == s.place && s'.pool == s.pool && s'.paused == s.paused
    ensures AllGood(s')
  {
    forall x | x in s.place ensures GoodAt(s', x) {
      assert GoodAt(s, x);
    }
  }

  lemma ReorderedPre(s: Sys, s': Sys, pre: seq<Id>)
    requires VictimList(s, pre, AtPaused)
    requires s'.data == s.data && s'.place == s.place && s'.paused == s.paused && s'.split == s.split
    ensures VictimList(s', pre, AtPaused)
  {
    forall v | v in pre ensures Victim(s', v, AtPaused) {
      assert Victim(s, v, AtPaused);
    }
  }

  // ---- Swapping a whole request out

  /** All GPU blocks of `v` went to the CPU; its counters are still as they were. */
  ghost predicate OutStep(s: Sys, l: Log, s1: Sys, l1: Log, v: Id, m: map<nat, nat>) {
    && v in s.pool.tables && v in s1.pool.tables && s1 == s.(pool := s1.pool)
    && s1.pool.tables == s.pool.tables[v := s1.pool.tables[v]] && |s1.pool.tables[v]| == |s.pool.tables[v]|
    && Moved(s.pool.tables, s.pool.tables[v], s1.pool.tables[v], GPU, m)
    && PoolOk(s1.pool) && Exclusive(s1.pool.tables) && SameArenas(s.pool, s1.pool)
    && GpuPrefix(s1.pool.tables[v], 0)
    && l1 == LoggedOut(l, s.pool.tables[v], s1.pool.tables[v], m)
  }

  /** The group swap of a single unshared sequence moves that sequence's table alone. */
  lemma GroupOfOne(p: Pool, q: Pool, v: Id, m: map<nat, nat>)
    requires PoolOk(p) && PoolOk(q) && Exclusive(p.tables) && v in p.tables
    requires GroupMoved(p.tables, q.tables, [v], GPU, m) && NoneInGroup(q.tables, [v], GPU)
    ensures v in q.tables && q.tables == p.tables[v := q.tables[v]] && |q.tables[v]| == |p.tables[v]|
    ensures Moved(p.tables, p.tables[v], q.tables[v], GPU, m) && Exclusive(q.tables)
    ensures GpuPrefix(q.tables[v], 0)
  {
    hide PoolOk, Exclusive, Moved;
    forall x | x in p.tables && x != v ensures q.tables[x] == p.tables[x] {
      assert x !in [v];
    }
    PoolParts(q, v);
    SingleMoved(p.tables, q.tables, v, m);
    MovedExclusive(p.tables, v, q.tables[v], GPU, m);
  }

  lemma SingleMoved(tables: map<Id, Table>, moved: map<Id, Table>, v: Id, m: map<nat, nat>)
    requires v in tables && GroupMoved(tables, moved, [v], GPU, m) && NoneInGroup(moved, [v], GPU)
    requires v in moved && NoDup(moved[v])
    ensures |moved[v]| == |tables[v]| && Moved(tables, tables[v], moved[v], GPU, m) && GpuPrefix(moved[v], 0)
  {
    var t, u := tables[v], moved[v];
    assert TableMoved(tables, t, u, GPU, m) && NoneOn(u, GPU);
    forall n | n in m ensures exists k :: 0 <= k < |t| && t[k] == Block(GPU, n) && u[k] != t[k] {
      var x :| x in [v] && Witness(tables, moved, x, GPU, n, m[n]);
      var k :| 0 <= k < |t| && t[k] == Block(GPU, n);
      assert u[k].device != GPU;
    }
  }

  lemma GroupOfOneCounts(p: Pool, q: Pool, v: Id, m: map<nat, nat>)
    requires v in p.tables && GroupMoved(p.tables, q.tables, [v], GPU, m) && NoneInGroup(q.tables, [v], GPU)
    ensures |m| == |OnDevice(p.tables[v], GPU)|
  {
    hide GroupMoved, NoneInGroup;
    GroupBlocksOne(p.tables, v, GPU);
    GroupCounts(p.tables, q.tables, [v], GPU, m);
  }

  lemma MovedExclusive(tables: map<Id, Table>, v: Id, u: Table, from: Device, m: map<nat, nat>)
    requires Exclusive(tables) && v in tables && Moved(tables, tables[v], u, from, m) && |u| == |tables[v]|
    ensures Exclusive(tables[v := u])
  {
    forall x, b | x in tables && x != v && b in u ensures b !in tables[x] {
      var k :| 0 <= k < |u| && u[k] == b;
      if u[k] == tables[v][k] {
        assert tables[v][k] in tables[v];
      } else {
        assert MovedEntry(tables, tables[v][k], u[k], from, m);
      }
    }
  }

  /** A request without GPU blocks, paused until its call returns. */
  function Parked(s1: Sys, v: Id): Sys
    requires v in s1.data && v in s1.pool.tables
  {
    s1.(data := s1.data[v := SwappedRec(s1.data[v], |s1.pool.tables[v]|).(status := PausedApi)],
        paused := s1.paused[v := Swap], place := s1.place[v := AtPaused],
        running := Remove(s1.running, v))
  }

  lemma OutParked(s: Sys, l: Log, s1: Sys, l1: Log, v: Id, m: map<nat, nat>)
    requires Sound(s, l) && OutStep(s, l, s1, l1, v, m)
    requires v in s.place && v in s.data && (s.place[v].AtRunning? || Victim(s, v, AtPaused))
    ensures v in s1.data && Sound(Parked(s1, v), l1) && OthersSame(s, Parked(s1, v), v)
    ensures Parked(s1, v).data[v].Remains(s.data[v])
    ensures SameArenas(s.pool, s1.pool)
  {
    hide PoolOk, Exclusive, Moved, Sound, Queues, GpuPrefix, Layout, MoveCells, LoggedOut, GoodAt;
    var s' := Parked(s1, v);
    SoundKeys(s, l);
    OthersSameFrom(s, s', v);
    ParkedGood(s, l, s1, v);
    ParkedQueues(s, s1, v);
    StepOut(s, l, s', v, m);
  }

  lemma ParkedGood(s: Sys, l: Log, s1: Sys, v: Id)
    requires Sound(s, l) && v in s.place && v in s.data && (s.place[v].AtRunning? || Victim(s, v, AtPaused))
    requires v in s.pool.tables && v in s1.pool.tables
    requires s1 == s.(pool := s1.pool) && |s1.pool.tables[v]| == |s.pool.tables[v]|
    requires GpuPrefix(s1.pool.tables[v], 0)
    ensures GoodAt(Parked(s1, v), v) && !InBatch(s.place, v) && !InBatch(Parked(s1, v).place, v) && !s.place[v].AtDone?
    ensures Parked(s1, v).data[v].Cached() == s.data[v].Cached()
  {
    hide Queues, Refines, Journal;
    assert GoodAt(s, v);
  }

  lemma ParkedQueues(s: Sys, s1: Sys, v: Id)
    requires s.data.Keys == s.place.Keys && Queues(s) && s1 == s.(pool := s1.pool) && v in s1.pool.tables
    requires v in s.place && v in s.data && (s.place[v].AtRunning? || s.place[v].AtPaused?)
    ensures Queues(Parked(s1, v))
  {
    hide Registers, Lists, ListsRunning, Remove;
    ParkedRunning(s.running, s.place, v);
    ListsElsewhere(s.combined, s.place, AtCombined, v, AtPaused);
    if s.split {
      ParkedRegisters(s, s1, v);
    } else {
      ListsElsewhere(s.waiting, s.place, AtWaiting, v, AtPaused);
      ListsElsewhere(s.swapped, s.place, AtSwapped, v, AtPaused);
    }
  }

  lemma ParkedRunning(l: seq<Id>, place: map<Id, Place>, v: Id)
    requires ListsRunning(l, place) && v in place
    ensures ListsRunning(Remove(l, v), place[v := AtPaused])
  {
    RemoveKeepsOthers(l, v);
  }

  lemma ParkedRegisters(s: Sys, s1: Sys, v: Id)
    requires s.data.Keys == s.place.Keys && Registers(s) && s1 == s.(pool := s1.pool) && v in s1.pool.tables
    requires v in s.place && v in s.data && (s.place[v].AtRunning? || s.place[v].AtPaused?)
    ensures Registers(Parked(s1, v))
  {
    hide Registers, Remove;
    RegistersElsewhere(s, Parked(s1, v), v, AtPaused);
  }

  /** A request that was swapped out as a whole. */
  ghost predicate Away(s: Sys, x: Id) {
    x in s.swapped || (x in s.paused && s.paused[x].Swap?)
  }

  ghost predicate HeldBySwap(s: Sys, x: Id, c: nat) {
    Away(s, x) && x in s.pool.tables && Block(CPU, c) in s.pool.tables[x]
  }

  /** Every pending copy to the CPU goes to a block of a request that was swapped out, and none comes
      back yet: what the newer scheduler keeps until it starts swapping in. */
  ghost predicate Anchored(s: Sys, l: Log) {
    l.ins == map[] && forall c :: c in l.outs.Values ==> exists x :: HeldBySwap(s, x, c)
  }

  /** Some pending copy to the CPU goes to a block of request `x`. */
  ghost predicate Awaiting(s: Sys, l: Log, x: Id) {
    x in s.pool.tables && exists c :: c in l.outs.Values && Block(CPU, c) in s.pool.tables[x]
  }

  /** All requests but `v` that were swapped out still are, with the same blocks. */
  ghost predicate AwayStays(s: Sys, s': Sys, v: Id) {
    forall y :: y != v && y in s.pool.tables && Away(s, y) ==>
      Away(s', y) && y in s'.pool.tables && s'.pool.tables[y] == s.pool.tables[y]
  }

  lemma AnchoredAfter(s: Sys, l: Log, s': Sys, v: Id)
    requires Anchored(s, l) && AwayStays(s, s', v) && (!Away(s, v) || !Awaiting(s, l, v))
    ensures Anchored(s', l)
  {
    forall c | c in l.outs.Values ensures exists x :: HeldBySwap(s', x, c) {
      var x :| HeldBySwap(s, x, c);
      assert x != v;
      assert HeldBySwap(s', x, c);
    }
  }

  /** Exactly when freeing a request's blocks leaves the pending copies anchored: none of them was
      to go to one of its blocks. */
  lemma AnchoredExactly(s: Sys, l: Log, s': Sys, v: Id)
    requires Anchored(s, l) && Exclusive(s.pool.tables) && AwayStays(s, s', v)
    requires v !in s'.pool.tables
    requires forall y :: y in s'.pool.tables ==> y in s.pool.tables && s'.pool.tables[y] == s.pool.tables[y]
    ensures Anchored(s', l) <==> !Awaiting(s, l, v)
  {
    if !Awaiting(s, l, v) {
      AnchoredAfter(s, l, s', v);
    } else {
      var c :| c in l.outs.Values && Block(CPU, c) in s.pool.tables[v];
      assert forall x :: x in s'.pool.tables ==> Block(CPU, c) !in s'.pool.tables[x];
    }
  }

  /** The next active discard gives up a request that some pending copy goes to. */
  ghost predicate Hasty(s: Sys, l: Log, priority: Id -> real) {
    && s.waiting == [] && s.swapped != []
    && SortedBy(s.swapped, priority) != [] && Awaiting(s, l, SortedBy(s.swapped, priority)[0])
  }

  lemma AnchoredSorted(s: Sys, l: Log, s': Sys)
    requires Anchored(s, l) && s'.pool == s.pool && s'.paused == s.paused
    requires forall x :: x in s.swapped ==> x in s'.swapped
    ensures Anchored(s', l)
  {
    forall c | c in l.outs.Values ensures exists x :: HeldBySwap(s', x, c) {
      var x :| HeldBySwap(s, x, c);
      assert HeldBySwap(s', x, c);
    }
  }

  lemma AnchoredOut(s: Sys, l: Log, s1: Sys, l1: Log, v: Id, m: map<nat, nat>)
    requires Anchored(s, l) && OutStep(s, l, s1, l1, v, m) && v in s1.data
    requires !Away(s, v)
    ensures Anchored(Parked(s1, v), l1) && l1.clash == l.clash
  {
    hide Exclusive, PoolOk, SameArenas, GpuPrefix, MoveCells;
    var t, u, s' := s.pool.tables[v], s1.pool.tables[v], Parked(s1, v);
    forall g | g in m ensures Block(CPU, m[g]) in u && m[g] !in l.outs.Values {
      var k := MovedBack(s.pool.tables, t, u, GPU, m, g);
      NotHeld(s, l, Block(CPU, m[g]));
    }
    AnchoredMore(s, l, s', l1, v, m);
  }

  lemma AnchoredMore(s: Sys, l: Log, s': Sys, l1: Log, v: Id, m: map<nat, nat>)
    requires Anchored(s, l) && AwayStays(s, s', v) && !Away(s, v) && l1.outs == l.outs + m && l1.ins == map[]
    requires Away(s', v) && v in s'.pool.tables && forall g :: g in m ==> Block(CPU, m[g]) in s'.pool.tables[v]
    ensures Anchored(s', l1)
  {
    AnchoredAfter(s, l, s', v);
    forall c | c in l1.outs.Values ensures exists x :: HeldBySwap(s', x, c) {
      var g :| g in l1.outs && l1.outs[g] == c;
      if g in m {
        assert HeldBySwap(s', v, c);
      } else {
        assert c in l.outs.Values;
      }
    }
  }

  lemma NotHeld(s: Sys, l: Log, b: Block)
    requires Anchored(s, l) && b.device.CPU? && Unowned(s.pool.tables, b)
    ensures b.number !in l.outs.Values
  {
    forall c | c in l.outs.Values ensures c != b.number {
      var x :| HeldBySwap(s, x, c);
    }
  }

  /** A step on another paused request leaves the pending copies anchored. */
  lemma AnchoredElsewhere(s: Sys, l: Log, s': Sys, v: Id)
    requires Sound(s, l) && Anchored(s, l) && OthersSame(s, s', v) && Victim(s, v, AtPaused) && s'.swapped == s.swapped
    ensures Anchored(s', l)
  {
    PausedRest(s, l, v);
    forall y | y != v && y in s.pool.tables && Away(s, y)
      ensures Away(s', y) && y in s'.pool.tables && s'.pool.tables[y] == s.pool.tables[y]
    {
      SoundKeys(s, l);
      assert SameAt(s, s', y);
    }
    AnchoredAfter(s, l, s', v);
  }

  /** A candidate was paused for good, or left as it was. */
  lemma ParkPaused(s: Sys, l: Log, s1: Sys, l1: Log, s': Sys, v: Id, m: map<nat, nat>)
    requires Sound(s, l) && Victim(s, v, AtPaused) && OutStep(s, l, s1, l1, v, m)
    requires v in s1.data && v in s1.pool.tables
    requires s' == s1.(data := s1.data[v := SwappedRec(s1.data[v], |s1.pool.tables[v]|)],
      paused := s1.paused[v := Swap])
    ensures Sound(s', l1) && Kept(s, s', AtPaused) && OthersSame(s, s', v) && SameArenas(s.pool, s'.pool)
    ensures Anchored(s, l) ==> Anchored(s', l1) && l1.clash == l.clash
  {
    hide *;
    PausedRest(s, l, v);
    OutStepFields(s, l, s1, l1, v, m);
    OutParked(s, l, s1, l1, v, m);
    ParkedSame(s, s1, s', v);
    KeptParked(s, s', v);
    if Anchored(s, l) {
      AnchoredOut(s, l, s1, l1, v, m);
    }
  }

  lemma PausedRest(s: Sys, l: Log, v: Id)
    requires Sound(s, l) && Victim(s, v, AtPaused)
    ensures v in s.place && v in s.data && v in s.paused && !s.paused[v].Swap? && s.data[v].status.PausedApi?
    ensures s.place[v].AtPaused? && v !in s.running && !Away(s, v)
  {
    assert GoodAt(s, v);
  }

  lemma OutStepFields(s: Sys, l: Log, s1: Sys, l1: Log, v: Id, m: map<nat, nat>)
    requires OutStep(s, l, s1, l1, v, m)
    ensures v in s.pool.tables && v in s1.pool.tables && s1 == s.(pool := s1.pool)
    ensures s1.pool.tables == s.pool.tables[v := s1.pool.tables[v]]
  {
  }

  lemma ParkedSame(s: Sys, s1: Sys, s': Sys, v: Id)
    requires v in s1.data && v in s1.pool.tables && s1 == s.(pool := s1.pool)
    requires v in s.place && s.place[v].AtPaused? && v !in s.running && s.data[v].status.PausedApi?
    requires s' == s1.(data := s1.data[v := SwappedRec(s1.data[v], |s1.pool.tables[v]|)],
      paused := s1.paused[v := Swap])
    ensures s' == Parked(s1, v) && s'.place == s.place && s'.split == s.split
  {
    assert s.place[v := AtPaused] == s.place;
  }

  lemma KeptParked(s: Sys, s': Sys, v: Id)
    requires OthersSame(s, s', v) && s'.split == s.split && s'.place == s.place && s.place[v].AtPaused?
    requires s'.data[v].Remains(s.data[v])
    ensures Kept(s, s', AtPaused)
  {
    KeptFrom(s, s', v, AtPaused);
  }

  /** One candidate was dealt with; the others are as they were. */
  lemma ChosenStep(s: Sys, s': Sys, x: Id, pre: seq<Id>, left: set<Id>)
    requires Between(s, pre, []) && x !in left && x !in pre
    requires forall y :: y in left ==> Victim(s, y, AtPaused)
    requires Kept(s, s', AtPaused) && OthersSame(s, s', x) && SameArenas(s.pool, s'.pool)
    ensures Between(s', pre, []) && Passed(s, s', [])
    ensures forall y :: y in left ==> Victim(s', y, AtPaused)
  {
    forall y | y in left || y in pre ensures Victim(s', y, AtPaused) {
      assert Victim(s, y, AtPaused) && SameAt(s, s', y);
    }
    KeptBetween(s, s', pre, pre, []);
  }

  lemma ChosenTarget(s: Sys, pre: seq<Id>, x: Id)
    requires Between(s, pre, []) && Victim(s, x, AtPaused) && x !in pre
    ensures Between(s, pre + [x], [])
  {
    NoDupConcat(pre, [x]);
  }

  lemma PreservedVictims(s: Sys, l: Log, left: set<Id>)
    requires Sound(s, l) && forall x :: x in left ==> x in s.paused && s.paused[x].Preserve?
    ensures forall x :: x in left ==> Victim(s, x, AtPaused)
  {
  }

  lemma DroppedParts(s: Sys, s': Sys, v: Id)
    requires Dropped(s, s', v, AtPaused)
    ensures Kept(s, s', AtPaused) && OthersSame(s, s', v) && SameArenas(s.pool, s'.pool)
  {
  }

  lemma NothingStep(s: Sys, l: Log, x: Id)
    requires Sound(s, l) && x in s.place
    ensures Kept(s, s, AtPaused) && OthersSame(s, s, x) && SameArenas(s.pool, s.pool)
  {
  }

  lemma GroupBlocksOne(tables: map<Id, Table>, v: Id, d: Device)
    requires v in tables
    ensures GroupBlocks(tables, [v], d) == OnDevice(tables[v], d)
  {
  }

  lemma UnsplitBetween(s: Sys, pre: seq<Id>, batch: seq<Id>)
    requires Between(s, pre, batch)
    ensures !s.split
  {
  }

  lemma SortedFirst(s: seq<Id>, priority: Id -> real)
    requires s != []
    ensures SortedBy(s, priority) != []
    ensures Remove(SortedBy(s, priority), SortedBy(s, priority)[0]) == SortedBy(s, priority)[1..]
  {
  }

  lemma BetweenParts(s: Sys, pre: seq<Id>, batch: seq<Id>)
    requires Between(s, pre, batch)
    ensures !s.split && Lists(batch, s.place, AtBatch)
  {
  }

  /** The preemption targets of one iteration mean nothing to the next. */
  lemma BetweenForget(s: Sys, pre: seq<Id>, a: seq<Id>, b: seq<Id>)
    requires Between(s, pre, a + b)
    ensures Between(s, [], a + b) && Between(s, [], b + a)
    ensures BatchTokens(s.data, b + a) == BatchTokens(s.data, a + b)
  {
    ListsSwap(a, b, s.place, AtBatch);
    BatchTokensConcat(s.data, a, b);
    BatchTokensConcat(s.data, b, a);
  }

  /** What one iteration schedules, in the order in which it runs, with a mark on the prompts. */
  datatype Plan = Plan(scheduled: seq<Id>, isPrompt: seq<bool>, ignored: seq<Id>)

  function Marks(prompts: nat, others: nat): seq<bool> {
    seq(prompts, _ => true) + seq(others, _ => false)
  }

  /** Every prompt comes before every other request of the batch, and nothing of a prompt is cached. */
  ghost predicate WellMarked(data: map<Id, SeqRec>, p: Plan) {
    && |p.isPrompt| == |p.scheduled|
    && (forall i, j :: 0 <= i < j < |p.isPrompt| && p.isPrompt[j] ==> p.isPrompt[i])
    && (forall i :: 0 <= i < |p.isPrompt| && p.isPrompt[i] ==>
         p.scheduled[i] in data && data[p.scheduled[i]].Cached() == 0)
  }

  lemma Marked(data: map<Id, SeqRec>, prompts: seq<Id>, others: seq<Id>, ignored: seq<Id>)
    requires Fresh(data, prompts)
    ensures WellMarked(data, Plan(prompts + others, Marks(|prompts|, |others|), ignored))
  {
  }

  lemma MarkedThree(data: map<Id, SeqRec>, a: seq<Id>, b: seq<Id>, c: seq<Id>, ignored: seq<Id>)
    requires Fresh(data, a)
    ensures WellMarked(data, Plan(a + b + c, Marks(|a|, |b| + |c|), ignored))
  {
    assert a + b + c == a + (b + c);
  }

  /** What the combined phase scheduled from the waiting list starts at its first token. */
  lemma PromptsFresh(s: Sys, l: Log, r: Round)
    requires Sound(s, l) && At(s, r) && r.q.QCombined?
    ensures Fresh(s.data, Select(r.scheduled, In(s.waiting)))
  {
    hide PoolOk, Exclusive, AllGood, Refines, Journal;
    assert Registers(s);
  }

  lemma WaitingFresh(s: Sys, r: Round)
    requires At(s, r)
    ensures r.q.QWaiting? ==> Fresh(s.data, r.scheduled)
  {
  }

  lemma NoBatch(data: map<Id, SeqRec>)
    ensures BatchTokens(data, []) == 0
  {
  }

  lemma PartedIs(s: Sys, r: Round, left: seq<Id>, swapped: seq<Id>, waiting: seq<Id>, place: map<Id, Place>)
    requires left == r.delayed + s.combined && swapped == Select(left, In(s.swapped))
    requires waiting == Select(left, In(s.waiting))
    requires place == Rehoused(Rehoused(Rehoused(s.place, r.scheduled, AtBatch), swapped, AtSwapped), waiting,
      AtWaiting)
    ensures Parted(s, r) == s.(split := false, combined := [], running := s.running + r.scheduled,
                               swapped := swapped, waiting := waiting, place := place)
  {
  }

  /** A swapped request that no pending copy goes to may lose its blocks. */
  lemma AnchoredSpared(s: Sys, l: Log, s': Sys, x: Id)
    requires Sound(s, l) && Anchored(s, l) && Spared(s, s', x)
    requires s'.swapped == Remove(s.swapped, x) && !Awaiting(s, l, x)
    ensures Anchored(s', l)
  {
    hide PoolOk, Exclusive, Kept, NoMore, SameArenas, Remove, GoodAt, Journal, Refines;
    RemoveKeepsOthers(s.swapped, x);
    SoundKeys(s, l);
    forall y | y != x && y in s.pool.tables && Away(s, y)
      ensures Away(s', y) && y in s'.pool.tables && s'.pool.tables[y] == s.pool.tables[y]
    {
      assert SameAt(s, s', y);
    }
    AnchoredAfter(s, l, s', x);
  }

  lemma AnchoredDiscard(s0: Sys, l: Log, s: Sys, s': Sys, priority: Id -> real)
    requires Sound(s, l) && Anchored(s0, l) && !Hasty(s0, l, priority) && s0.waiting == [] && s0.swapped != []
    requires s.pool == s0.pool && s.paused == s0.paused
    requires s.swapped == SortedBy(s0.swapped, priority) && s.swapped != []
    requires Spared(s, s', s.swapped[0]) && s'.swapped == Remove(s.swapped, s.swapped[0])
    ensures Anchored(s', l)
  {
    hide Sound, Spared, SortedBy, Remove;
    SortedPermutes(s0.swapped, priority);
    assert forall x :: x in s0.swapped <==> x in multiset(s.swapped);
    AnchoredSorted(s0, l, s);
    AnchoredSpared(s, l, s', s.swapped[0]);
  }

  lemma VictimTable(s: Sys, l: Log, v: Id)
    requires Sound(s, l) && Victim(s, v, AtPaused)
    ensures v in s.pool.tables && TableOf(s.pool.tables, v) == s.pool.tables[v]
    ensures v in s.paused && s.paused[v] == Preserve && s.paused[v := Preserve] == s.paused
  {
    VictimFacts(s, l, v, AtPaused);
  }

  lemma NoDupLonger(s: seq<Id>, x: Id)
    requires NoDup(s) && x !in s
    ensures NoDup(s + [x])
  {
  }

  lemma NothingPending(s: Sys, l: Log)
    ensures l.outs == map[] && l.ins == map[] ==> Anchored(s, l)
  {
  }

  lemma BatchKnown(s: Sys, l: Log, batch: seq<Id>)
    requires Sound(s, l) && Between(s, [], batch)
    ensures forall x :: x in batch ==> x in s.data
  {
  }

  /** A waiting request is due when its starvation counter says so. */
  function Due(data: map<Id, SeqRec>, promoted: set<Id>): Id -> bool {
    (x: Id) => x in data && data[x].status.Waiting? && x in promoted
  }

  lemma TargetsPermute(s: seq<Id>, priority: Id -> real, first: Id -> bool)
    ensures multiset(Partition(SortedBy(s, priority), first)) == multiset(s)
  {
    SortedPermutes(s, priority);
    PartitionPermutes(SortedBy(s, priority), first);
  }
}
