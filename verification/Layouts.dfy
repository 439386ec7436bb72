/** How a block table and a sequence's counters must agree: a GPU prefix, a CPU
    suffix of `swapLength` blocks, and one block per started block of cached tokens. */
module Layouts {
  import opened Basics
  import opened Blocks
  import opened Sequences

  /** The first `g` entries are GPU blocks and the rest are CPU blocks. */
  ghost predicate GpuPrefix(t: Table, g: int) {
    && 0 <= g <= |t|
    && (forall k :: 0 <= k < g ==> t[k].device.GPU?)
    && (forall k :: g <= k < |t| ==> t[k].device.CPU?)
  }

  function OnDevice(t: Table, d: Device): set<Block> {
    set b | b in t && b.device == d
  }

  lemma {:induction false} CountPrefix(t: Table, g: int)
    requires NoDup(t) && GpuPrefix(t, g)
    ensures |OnDevice(t, GPU)| == g
    ensures |OnDevice(t, CPU)| == |t| - g
  {
    if t == [] {
      assert OnDevice(t, GPU) == {} && OnDevice(t, CPU) == {};
    } else {
      var n := |t| - 1;
      var s, last := t[..n], t[n];
      assert t == s + [last];
      assert last !in s;
      CountPrefix(s, if g == |t| then n else g);
      if last.device.GPU? {
        assert OnDevice(t, GPU) == OnDevice(s, GPU) + {last};
        assert OnDevice(t, CPU) == OnDevice(s, CPU);
      } else {
        assert OnDevice(t, CPU) == OnDevice(s, CPU) + {last};
        assert OnDevice(t, GPU) == OnDevice(s, GPU);
      }
    }
  }

  /** Between iterations, and for every sequence that is not in the batch. */
  ghost predicate Layout(b: nat, d: SeqRec, t: Table)
    requires b > 0
  {
    && d.Sane()
    && |t| == CeilDiv(d.Cached(), b)
    && GpuPrefix(t, |t| - d.swapLength)
    && (d.swapLength > 0 ==> d.swapStart == |t| - d.swapLength)
  }

  /** Between `allocate` and `post_forward`: the table already has the blocks of the planned work. */
  ghost predicate PendingLayout(b: nat, d: SeqRec, t: Table)
    requires b > 0
  {
    && d.Sane() && d.Workload()
    && |t| == CeilDiv(d.Cached() + d.runningInflight, b)
    && GpuPrefix(t, |t| - (d.swapLength - d.resumeSwap))
    && (d.swapLength > d.resumeSwap ==> d.swapStart + d.resumeSwap == |t| - (d.swapLength - d.resumeSwap))
  }

  function NumRequiredBlocksInflight(d: SeqRec, b: nat): int
    requires b > 0 && 0 <= d.Cached() && 0 <= d.runningInflight
  {
    CeilDiv(d.Cached() + d.runningInflight, b) - CeilDiv(d.Cached(), b)
  }

  /** The GPU blocks that the planned work needs: `get_memory_requirement`. */
  function MemoryRequirement(d: SeqRec, b: nat): int
    requires b > 0 && d.Sane() && d.Workload()
  {
    d.resumeSwap + NumRequiredBlocksInflight(d, b)
  }

  /** The numbers of the blocks of one device that some table lists. */
  ghost function OwnedNumbers(p: Pool, d: Device): set<nat> {
    set n | 0 <= n < |p.On(d).refs| && !Unowned(p.tables, Block(d, n))
  }

  ghost function UpTo(n: nat): (s: set<nat>)
    ensures |s| == n
    ensures forall k :: k in s <==> 0 <= k < n
  {
    if n == 0 then {} else UpTo(n - 1) + {n - 1}
  }

  lemma {:induction false} SizeOfNoDup<T>(s: seq<T>)
    requires NoDup(s)
    ensures |set x | x in s| == |s|
  {
    if s == [] {
      assert (set x | x in s) == {};
    } else {
      var n := |s| - 1;
      assert s == s[..n] + [s[n]];
      SizeOfNoDup(s[..n]);
      assert (set x | x in s) == (set x | x in s[..n]) + {s[n]};
    }
  }

  /** No leak: per device, free blocks plus blocks in tables are the whole arena. */
  lemma FreePlusOwned(p: Pool, d: Device)
    requires PoolOk(p)
    ensures |p.On(d).free| + |OwnedNumbers(p, d)| == |p.On(d).refs|
  {
    var a := p.On(d);
    var free := set n | n in a.free;
    SizeOfNoDup(a.free);
    forall n | 0 <= n < |a.refs| ensures n in free <==> n !in OwnedNumbers(p, d) {
      FreeIffUnowned(p, Block(d, n));
    }
    assert forall n :: n in free ==> 0 <= n < |a.refs|;
    Complementary(free, OwnedNumbers(p, d), |a.refs|);
  }

  lemma Complementary(s: set<nat>, t: set<nat>, n: nat)
    requires forall k :: 0 <= k < n ==> (k in s <==> k !in t)
    requires forall k :: k in s + t ==> k < n
    ensures |s| + |t| == n
  {
    assert s + t == UpTo(n);
    assert s !! t;
  }

  lemma NothingOwned(p: Pool)
    requires PoolOk(p) && p.tables == map[]
    ensures |p.gpu.free| == |p.gpu.refs| && |p.cpu.free| == |p.cpu.refs|
  {
    FreePlusOwned(p, GPU);
    FreePlusOwned(p, CPU);
    assert OwnedNumbers(p, GPU) == {} && OwnedNumbers(p, CPU) == {};
  }

  lemma {:induction false} NumbersOfBlocks(s: set<Block>, d: Device)
    requires forall b :: b in s ==> b.device == d
    ensures |set b | b in s :: b.number| == |s|
  {
    if s == {} {
      assert (set b | b in s :: b.number) == {};
    } else {
      var x :| x in s;
      NumbersOfBlocks(s - {x}, d);
      assert (set b | b in s :: b.number) == (set b | b in s - {x} :: b.number) + {x.number};
    }
  }

  /** Dropping an unshared table frees exactly its blocks. */
  lemma DroppedCounts(p: Pool, q: Pool, id: Id, d: Device)
    requires PoolOk(p) && PoolOk(q) && Exclusive(p.tables)
    requires q.tables == p.tables - {id} && |q.On(d).refs| == |p.On(d).refs|
    ensures |q.On(d).free| == |p.On(d).free| + |OnDevice(TableOf(p.tables, id), d)|
  {
    var mine := OnDevice(TableOf(p.tables, id), d);
    var numbers := set b | b in mine :: b.number;
    NumbersOfBlocks(mine, d);
    FreePlusOwned(p, d);
    FreePlusOwned(q, d);
    forall n ensures n in OwnedNumbers(p, d) <==> n in OwnedNumbers(q, d) || n in numbers
             ensures !(n in OwnedNumbers(q, d) && n in numbers)
    {
      DroppedNumber(p, q, id, d, n);
    }
    assert OwnedNumbers(p, d) == OwnedNumbers(q, d) + numbers;
  }

  lemma DroppedNumber(p: Pool, q: Pool, id: Id, d: Device, n: nat)
    requires PoolOk(p) && Exclusive(p.tables)
    requires q.tables == p.tables - {id} && |q.On(d).refs| == |p.On(d).refs|
    ensures var numbers := set b | b in OnDevice(TableOf(p.tables, id), d) :: b.number;
      && (n in OwnedNumbers(p, d) <==> n in OwnedNumbers(q, d) || n in numbers)
      && !(n in OwnedNumbers(q, d) && n in numbers)
  {
    var b := Block(d, n);
    DroppedOwner(p.tables, id, b);
    assert n in (set c | c in OnDevice(TableOf(p.tables, id), d) :: c.number) <==> b in TableOf(p.tables, id);
    if id in p.tables {
      assert TableOk(p, p.tables[id]);
    }
  }

  lemma DroppedOwner(tables: map<Id, Table>, id: Id, b: Block)
    requires Exclusive(tables)
    ensures Unowned(tables, b) <==> Unowned(tables - {id}, b) && b !in TableOf(tables, id)
    ensures b in TableOf(tables, id) ==> Unowned(tables - {id}, b)
  {
    var rest := tables - {id};
    assert forall x :: x in rest ==> x in tables && rest[x] == tables[x];
    assert forall x :: x in tables && x != id ==> x in rest;
  }
}
