/** What the scheduler's invariant says about whole runs: every request is in exactly one place, no
    block is lost, and where the source breaks either promise. */
module Accounting {
  import opened Basics
  import opened Blocks
  import opened Sequences
  import opened Layouts
  import opened BlockManager
  import opened System
  import opened Memory
  import opened Steps
  import opened Preemption
  import opened Rounds
  import opened Phases

  function Count(b: bool): nat {
    if b then 1 else 0
  }

  /** Request conservation at every step boundary: a request is in exactly one of the queues, among
      the paused, or finished, and its status says which. */
  lemma ExactlyOnePlace(s: Sys, x: Id)
    requires Inv(s) && Between(s, [], []) && x in s.data
    ensures Count(x in s.waiting) + Count(x in s.running) + Count(x in s.swapped) + Count(x in s.paused)
          + Count(s.data[x].status.IsFinished()) == 1
    ensures x in s.waiting <==> s.data[x].status.Waiting?
    ensures x in s.running <==> s.data[x].status.Running?
    ensures x in s.swapped <==> s.data[x].status.Swapped?
    ensures x in s.paused <==> s.data[x].status.PausedApi?
  {
    hide PoolOk, Exclusive, Layout;
    assert GoodAt(s, x);
  }

  /** What each kind of request owns: running and preserved requests have a GPU block, swapped ones
      only CPU blocks, waiting and discarded ones nothing. */
  lemma Residency(s: Sys, x: Id)
    requires Inv(s) && Between(s, [], []) && x in s.data
    ensures x in s.waiting || (x in s.paused && s.paused[x].Recompute?) ==> x !in s.pool.tables
    ensures x in s.running || (x in s.paused && s.paused[x].Preserve?) ==>
      x in s.pool.tables && OnDevice(s.pool.tables[x], GPU) != {}
    ensures x in s.swapped || (x in s.paused && s.paused[x].Swap?) ==>
      x in s.pool.tables && s.pool.tables[x] != [] && OnDevice(s.pool.tables[x], GPU) == {}
    ensures s.data[x].status.IsFinished() && !s.data[x].status.FinishedIgnored? ==> x !in s.pool.tables
  {
    assert GoodAt(s, x);
    if x in s.pool.tables && s.pool.tables[x] != [] && s.pool.tables[x][0].device.GPU? {
      assert s.pool.tables[x][0] in OnDevice(s.pool.tables[x], GPU);
    }
  }

  /** The numbers of the blocks of one device that unfinished (or finished) requests list. */
  ghost function Held(s: Sys, d: Device, finished: bool): set<nat>
    requires s.pool.tables.Keys <= s.data.Keys
  {
    set n | 0 <= n < |s.pool.On(d).refs| && HeldBy(s, Block(d, n), finished)
  }

  ghost predicate HeldBy(s: Sys, b: Block, finished: bool)
    requires s.pool.tables.Keys <= s.data.Keys
  {
    exists x :: x in s.pool.tables && b in s.pool.tables[x] && s.data[x].status.IsFinished() == finished
  }

  /** No leak: as long as no known request is longer than the prompt limit, free blocks and blocks of
      unfinished requests make up the whole arena. */
  lemma NoLeak(s: Sys, d: Device)
    requires Inv(s) && Between(s, [], [])
    requires forall x :: x in s.data ==> s.data[x].Len() <= s.limit
    ensures |s.pool.On(d).free| + |Held(s, d, false)| == |s.pool.On(d).refs|
  {
    FreePlusOwned(s.pool, d);
    HeldParts(s, d);
    forall n ensures n !in Held(s, d, true) {
      if n in Held(s, d, true) {
        var x :| x in s.pool.tables && Block(d, n) in s.pool.tables[x] && s.data[x].status.IsFinished();
        IgnoredOwner(s, x);
      }
    }
    assert Held(s, d, true) == {};
  }

  /** Free blocks and blocks of unfinished requests make up both arenas. */
  ghost predicate NoneLost(s: Sys) {
    s.pool.tables.Keys <= s.data.Keys &&
      forall d: Device :: |s.pool.On(d).free| + |Held(s, d, false)| == |s.pool.On(d).refs|
  }

  lemma NoneLostWithin(s: Sys)
    requires Inv(s) && Between(s, [], [])
    requires forall x :: x in s.data ==> s.data[x].Len() <= s.limit
    ensures NoneLost(s)
  {
    forall d: Device ensures |s.pool.On(d).free| + |Held(s, d, false)| == |s.pool.On(d).refs| {
      NoLeak(s, d);
    }
  }

  lemma HeldParts(s: Sys, d: Device)
    requires Inv(s)
    ensures |OwnedNumbers(s.pool, d)| == |Held(s, d, false)| + |Held(s, d, true)|
  {
    hide AllGood, Queues, PoolOk;
    forall n ensures n in OwnedNumbers(s.pool, d) <==> n in Held(s, d, false) || n in Held(s, d, true)
             ensures !(n in Held(s, d, false) && n in Held(s, d, true))
    {
      HeldNumber(s, d, n);
    }
    assert OwnedNumbers(s.pool, d) == Held(s, d, false) + Held(s, d, true);
  }

  lemma HeldNumber(s: Sys, d: Device, n: int)
    requires Inv(s)
    ensures n in OwnedNumbers(s.pool, d) <==> n in Held(s, d, false) || n in Held(s, d, true)
    ensures !(n in Held(s, d, false) && n in Held(s, d, true))
  {
    hide AllGood, Queues, PoolOk;
    if 0 <= n < |s.pool.On(d).refs| {
      var b := Block(d, n);
      if !Unowned(s.pool.tables, b) {
        var x :| x in s.pool.tables && b in s.pool.tables[x];
        assert HeldBy(s, b, s.data[x].status.IsFinished());
      }
    }
  }

  lemma IgnoredOwner(s: Sys, x: Id)
    requires Inv(s) && Between(s, [], []) && x in s.pool.tables && s.data[x].status.IsFinished()
    ensures s.data[x].status.FinishedIgnored? && s.limit < s.data[x].Len()
  {
    assert GoodAt(s, x);
  }

  /** What `_schedule` does with a target that is too long: it is finished, and keeps its table. */
  ghost function Ignored(s: Sys, c: Id): Sys
    requires c in s.data
  {
    s.(place := s.place[c := AtDone], data := s.data[c := s.data[c].(status := FinishedIgnored)])
  }

  /** Exactly what ignoring a target loses: the blocks that it owned.  So nothing is lost if and only if
      the target owned no block. */
  lemma IgnoringLoses(s: Sys, c: Id, d: Device)
    requires Inv(s) && c in s.data && s.place[c].AtCurrent?
    ensures var mine := OnDevice(TableOf(s.pool.tables, c), d);
      && |Held(Ignored(s, c), d, false)| == |Held(s, d, false)| - |mine|
      && (|Held(Ignored(s, c), d, false)| == |Held(s, d, false)| <==> mine == {})
  {
    hide *;
    TablesKnown(s, c);
    var mine := OnDevice(TableOf(s.pool.tables, c), d);
    var numbers := set b | b in mine :: b.number;
    OnDeviceOnly(TableOf(s.pool.tables, c), d);
    NumbersOfBlocks(mine, d);
    var before, after := Held(s, d, false), Held(Ignored(s, c), d, false);
    forall n ensures n in before <==> n in after || n in numbers
             ensures !(n in after && n in numbers)
    {
      IgnoredNumber(s, c, d, n);
    }
    assert before == after + numbers && after !! numbers;
  }

  lemma TablesKnown(s: Sys, c: Id)
    requires Inv(s) && c in s.data
    ensures s.pool.tables.Keys <= s.data.Keys && s.pool.tables.Keys <= Ignored(s, c).data.Keys
    ensures Ignored(s, c).pool == s.pool
  {
  }

  lemma OnDeviceOnly(t: Table, d: Device)
    ensures forall b :: b in OnDevice(t, d) ==> b.device == d
  {
  }

  lemma IgnoredNumber(s: Sys, c: Id, d: Device, n: int)
    requires Inv(s) && c in s.data && s.place[c].AtCurrent?
    ensures var numbers := set b | b in OnDevice(TableOf(s.pool.tables, c), d) :: b.number;
      && (n in Held(s, d, false) <==> n in Held(Ignored(s, c), d, false) || n in numbers)
      && !(n in Held(Ignored(s, c), d, false) && n in numbers)
  {
    hide AllGood, Queues, PoolOk, Good;
    CurrentUnfinished(s, c);
    var s', t := Ignored(s, c), TableOf(s.pool.tables, c);
    if 0 <= n < |s.pool.On(d).refs| {
      var b := Block(d, n);
      if b in t {
        assert HeldBy(s, b, false);
        assert forall x :: x in s.pool.tables && b in s.pool.tables[x] ==> x == c;
      } else if HeldBy(s, b, false) {
        var x :| x in s.pool.tables && b in s.pool.tables[x] && !s.data[x].status.IsFinished();
        assert s'.data[x] == s.data[x];
      }
    } else if c in s.pool.tables {
      OwnNumbers(s, c, d, n);
    }
  }

  lemma OwnNumbers(s: Sys, c: Id, d: Device, n: int)
    requires Inv(s) && c in s.pool.tables && !(0 <= n < |s.pool.On(d).refs|)
    ensures n !in set b | b in OnDevice(s.pool.tables[c], d) :: b.number
  {
    assert TableOk(s.pool, s.pool.tables[c]);
  }

  lemma CurrentUnfinished(s: Sys, c: Id)
    requires Inv(s) && c in s.data && s.place[c].AtCurrent?
    ensures !s.data[c].status.IsFinished() && Exclusive(s.pool.tables)
  {
    assert GoodAt(s, c);
  }
}
