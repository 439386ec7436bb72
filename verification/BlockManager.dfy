/** The two reference-counted allocators and the manager of block tables. */
module BlockManager {
  import opened Basics
  import opened Blocks
  import opened Sequences
  import opened Layouts

  class BlockAllocator {
    const device: Device
    var freeBlocks: seq<nat>
    var refCount: seq<nat>

    constructor (d: Device, numBlocks: nat)
      ensures device == d
      ensures |refCount| == numBlocks && View().Ok()
      ensures forall n :: 0 <= n < numBlocks ==> refCount[n] == 0
    {
      device := d;
      freeBlocks := seq(numBlocks, i => i);
      refCount := seq(numBlocks, _ => 0);
      new;
      forall n | 0 <= n < numBlocks ensures n in freeBlocks {
        assert freeBlocks[n] == n;
      }
    }

    ghost function View(): Arena
      reads this
    {
      Arena(freeBlocks, refCount)
    }

    /** `None` stands for the "Out of memory" exception. */
    method Allocate() returns (r: Option<nat>)
      requires View().Ok()
      modifies this
      ensures r.None? <==> old(freeBlocks) == []
      ensures r.None? ==> View() == old(View())
      ensures r.Some? ==>
        && r.value in old(freeBlocks)
        && freeBlocks == old(freeBlocks)[..|old(freeBlocks)| - 1]
        && r.value == old(freeBlocks)[|old(freeBlocks)| - 1]
        && refCount == old(refCount)[r.value := 1]
      ensures View().Ok()
    {
      if |freeBlocks| == 0 {
        return None;
      }
      var n := freeBlocks[|freeBlocks| - 1];
      assert n in freeBlocks;
      freeBlocks := freeBlocks[..|freeBlocks| - 1];
      refCount := refCount[n := 1];
      r := Some(n);
      ghost var f := old(freeBlocks);
      assert forall x :: x in f <==> x in freeBlocks || x == n by { assert f == freeBlocks + [n]; }
    }

    /** `false` stands for the "Double free" exception. */
    method Free(n: nat) returns (ok: bool)
      requires View().Ok() && n < |refCount|
      modifies this
      ensures ok <==> old(refCount)[n] != 0
      ensures !ok ==> View() == old(View())
      ensures ok ==> refCount == old(refCount)[n := old(refCount)[n] - 1]
      ensures ok ==> freeBlocks == if old(refCount)[n] == 1 then old(freeBlocks) + [n] else old(freeBlocks)
      ensures View().Ok()
    {
      if refCount[n] == 0 {
        return false;
      }
      refCount := refCount[n := refCount[n] - 1];
      if refCount[n] == 0 {
        freeBlocks := freeBlocks + [n];
      }
      return true;
    }

    /** A further table lists a block that is already in use. */
    method Retain(n: nat)
      requires View().Ok() && n < |refCount| && refCount[n] != 0
      modifies this
      ensures View().Ok()
      ensures freeBlocks == old(freeBlocks)
      ensures refCount == old(refCount)[n := old(refCount)[n] + 1]
    {
      refCount := refCount[n := refCount[n] + 1];
    }
  }

  class BlockSpaceManager {
    const blockSize: nat
    const gpu: BlockAllocator
    const cpu: BlockAllocator
    var blockTables: map<Id, Table>

    constructor (size: nat, numGpuBlocks: nat, numCpuBlocks: nat)
      requires size > 0
      ensures Valid() && fresh(gpu) && fresh(cpu)
      ensures blockSize == size && blockTables == map[]
      ensures |View().gpu.refs| == numGpuBlocks && |View().cpu.refs| == numCpuBlocks
    {
      blockSize := size;
      gpu := new BlockAllocator(GPU, numGpuBlocks);
      cpu := new BlockAllocator(CPU, numCpuBlocks);
      blockTables := map[];
      new;
      forall b | View().Has(b) ensures View().Ref(b) == |Owners(blockTables, b)| {
        assert Owners(blockTables, b) == {};
      }
    }

    ghost function View(): Pool
      reads this, gpu, cpu
    {
      Pool(gpu.View(), cpu.View(), blockTables)
    }

    ghost predicate Valid()
      reads this, gpu, cpu
    {
      blockSize > 0 && gpu != cpu && PoolOk(View())
    }

    function CanFulfillBlocks(r: int): bool
      reads this, gpu
    {
      r <= |gpu.freeBlocks|
    }

    /** Moves entry `i` of one table to a fresh block of the other device. `false` is "Out of memory". */
    method Rehome(id: Id, i: nat) returns (ok: bool)
      requires Valid() && id in blockTables && i < |blockTables[id]|
      requires View().Has(blockTables[id][i]) && View().Ref(blockTables[id][i]) == 1
      modifies this, gpu, cpu
      ensures ok <==> old(View()).On(Other(old(blockTables)[id][i].device)).free != []
      ensures Valid()
      ensures !ok ==> View() == old(View())
      ensures SameArenas(old(View()), View())
      ensures ok ==> Rehomed(old(View()), View(), id, i)
    {
      var b := blockTables[id][i];
      ghost var p := View();
      assert TableOk(p, p.tables[id]);
      OwnedHasRef(p, id, b);
      var r := if b.device.GPU? then cpu else gpu;
      var c := r.Allocate();
      if c.None? {
        return false;
      }
      var n := Block(Other(b.device), c.value);
      blockTables := blockTables[id := blockTables[id][i := n]];
      var home := if b.device.GPU? then gpu else cpu;
      var freed := home.Free(b.number);
      assert freed;
      FreeIffUnowned(p, n);
      assert n !in p.tables[id];
      ReplacedMembers(p.tables[id], i, n);
      SetTableKeepsPoolOk(p, View(), id, p.tables[id][i := n]);
      return true;
    }

    method GetMemoryRequirement(s: SeqRec) returns (n: int)
      requires Valid() && s.Sane() && s.Workload()
      ensures n == MemoryRequirement(s, blockSize)
      ensures n >= 0
    {
      n := 0;
      if s.resumeSwap != 0 {
        n := n + s.resumeSwap;
      }
      CeilDivMono(s.Cached(), s.Cached() + s.runningInflight, blockSize);
      if s.runningInflight != 0 {
        assert s.discardLength - s.resumeDiscard == 0;
        assert s.swapLength - s.resumeSwap == 0;
        var cached := s.Len() - s.inflight;
        n := n + CeilDiv(cached + s.runningInflight, blockSize) - CeilDiv(cached, blockSize);
      }
    }

    /** Re-homes an entry that a move of table `t` has left alone so far, and records the copy. */
    method MoveEntry(id: Id, i: nat, ghost p0: Pool, ghost t: Table, m: map<nat, nat>)
      returns (ok: bool, mapping: map<nat, nat>)
      requires Valid() && Exclusive(blockTables)
      requires id in p0.tables && p0.tables[id] == t && NoDup(t)
      requires id in blockTables && blockTables == p0.tables[id := blockTables[id]]
      requires i < |t| == |blockTables[id]| && blockTables[id][i] == t[i]
      requires Moved(p0.tables, t, blockTables[id], t[i].device, m)
      modifies this, gpu, cpu
      ensures Valid() && Exclusive(blockTables) && SameArenas(old(View()), View())
      ensures ok <==> (if t[i].device.GPU? then old(cpu.freeBlocks) else old(gpu.freeBlocks)) != []
      ensures id in blockTables && blockTables == p0.tables[id := blockTables[id]]
      ensures !ok ==> View() == old(View())
      ensures ok ==> |blockTables[id]| == |t| && blockTables[id][i].device == Other(t[i].device)
      ensures ok ==> blockTables[id] == old(blockTables[id])[i := blockTables[id][i]]
      ensures ok ==> Moved(p0.tables, t, blockTables[id], t[i].device, mapping)
      ensures ok ==> if t[i].device.GPU?
        then |gpu.freeBlocks| == |old(gpu.freeBlocks)| + 1 && |cpu.freeBlocks| == |old(cpu.freeBlocks)| - 1
        else |gpu.freeBlocks| == |old(gpu.freeBlocks)| - 1 && |cpu.freeBlocks| == |old(cpu.freeBlocks)| + 1
    {
      ghost var p := View();
      ExclusiveRef(p, id, blockTables[id][i]);
      var b := blockTables[id][i];
      mapping := m;
      ok := Rehome(id, i);
      if ok {
        RehomedMoves(p0, p, View(), id, i, t, m);
        mapping := m[b.number := blockTables[id][i].number];
      }
    }

    /** Swaps the first `n` CPU blocks of a table in, front to back.  `false` is "Out of memory". */
    method SwapInFront(id: Id, ghost g: nat, n: nat) returns (ok: bool, mapping: map<nat, nat>)
      requires Valid() && Exclusive(blockTables) && id in blockTables
      requires GpuPrefix(blockTables[id], g) && g + n <= |blockTables[id]|
      modifies this, gpu, cpu
      ensures ok <==> n <= |old(gpu.freeBlocks)|
      ensures Valid() && Exclusive(blockTables) && SameArenas(old(View()), View())
      ensures id in blockTables && blockTables == old(blockTables)[id := blockTables[id]]
      ensures ok ==> |blockTables[id]| == |old(blockTables[id])| && GpuPrefix(blockTables[id], g + n)
      ensures ok ==> Moved(old(blockTables), old(blockTables[id]), blockTables[id], CPU, mapping)
      ensures ok ==> |gpu.freeBlocks| == |old(gpu.freeBlocks)| - n
      ensures ok ==> |cpu.freeBlocks| == |old(cpu.freeBlocks)| + n
    {
      hide PoolOk, Exclusive, Moved, SameArenas;
      mapping := map[];
      ghost var t := blockTables[id];
      PoolParts(View(), id);
      NothingMoved(blockTables, t, CPU);
      ArenasSame(View());
      var left := n;
      var i := 0;
      while i < |blockTables[id]|
        invariant Valid() && Exclusive(blockTables) && SameArenas(old(View()), View())
        invariant id in blockTables && blockTables == old(blockTables)[id := blockTables[id]]
        invariant 0 <= left <= n && i <= |t| == |blockTables[id]|
        invariant n - left == if i <= g then 0 else if i <= g + n then i - g else n
        invariant GpuPrefix(blockTables[id], g + (n - left))
        invariant forall k :: i <= k < |t| ==> blockTables[id][k] == t[k]
        invariant Moved(old(blockTables), t, blockTables[id], CPU, mapping)
        invariant |gpu.freeBlocks| == |old(gpu.freeBlocks)| - (n - left)
        invariant |cpu.freeBlocks| == |old(cpu.freeBlocks)| + (n - left)
      {
        if !(blockTables[id][i].device.GPU? || left == 0) {
          ghost var p := View();
          ok, mapping := MoveEntry(id, i, old(View()), t, mapping);
          ArenasTrans(old(View()), p, View());
          if !ok {
            return;
          }
          left := left - 1;
        }
        i := i + 1;
      }
      ok := true;
    }

    method AppendBlocks(id: Id, count: nat) returns (ok: bool)
      requires Valid() && Exclusive(blockTables) && id in blockTables
      modifies this, gpu
      ensures ok <==> count <= |old(gpu.freeBlocks)|
      ensures Valid() && Exclusive(blockTables) && SameArenas(old(View()), View())
      ensures id in blockTables && blockTables == old(blockTables)[id := blockTables[id]]
      ensures ok ==> Grown(old(blockTables), old(blockTables[id]), blockTables[id], count)
      ensures ok ==> |gpu.freeBlocks| == |old(gpu.freeBlocks)| - count
    {
      ghost var t := blockTables[id];
      assert TableOk(View(), t);
      var j := 0;
      while j < count
        invariant Valid() && Exclusive(blockTables) && SameArenas(old(View()), View())
        invariant id in blockTables && blockTables == old(blockTables)[id := blockTables[id]]
        invariant j <= count && cpu.View() == old(cpu.View())
        invariant Grown(old(blockTables), t, blockTables[id], j)
        invariant |gpu.freeBlocks| == |old(gpu.freeBlocks)| - j
      {
        ghost var p := View();
        assert TableOk(p, p.tables[id]);
        var c := gpu.Allocate();
        if c.None? {
          return false;
        }
        var b := Block(GPU, c.value);
        FreeIffUnowned(p, b);
        blockTables := blockTables[id := blockTables[id] + [b]];
        SetTableKeepsPoolOk(p, View(), id, p.tables[id] + [b]);
        GrownByOne(old(View()), p, View(), id, b, j);
        j := j + 1;
      }
      return true;
    }

    /** Swaps in the planned CPU blocks from the front of the CPU suffix, then appends the blocks
        that the planned tokens need.  `false` is "Out of memory", raised part of the way through.
        `mapping` holds the block copies to perform. */
    method Allocate(id: Id, s: SeqRec) returns (ok: bool, mapping: map<nat, nat>)
      requires Valid() && Exclusive(blockTables)
      requires s.Workload() && Layout(blockSize, s.Cleared(), TableOf(blockTables, id))
      modifies this, gpu, cpu
      ensures ok <==> MemoryRequirement(s, blockSize) <= |old(gpu.freeBlocks)|
      ensures Valid() && Exclusive(blockTables) && SameArenas(old(View()), View())
      ensures ok ==> id in blockTables && blockTables == old(blockTables)[id := blockTables[id]]
      ensures ok ==> PendingLayout(blockSize, s, blockTables[id])
      ensures ok ==> Moved(old(blockTables), TableOf(old(blockTables), id), blockTables[id], CPU, mapping)
      ensures ok ==> |gpu.freeBlocks| == |old(gpu.freeBlocks)| - MemoryRequirement(s, blockSize)
      ensures ok ==> |cpu.freeBlocks| == |old(cpu.freeBlocks)| + s.resumeSwap
    {
      hide PoolOk, Exclusive, Moved, Grown, Unowned, SameArenas, Layout, PendingLayout, GpuPrefix, CeilDiv;
      EnsureTable(id);
      ArenasKept(old(View()), View());
      ghost var p1 := View();
      ghost var tables, t := blockTables, blockTables[id];
      PoolParts(View(), id);
      BeforeWork(blockSize, s, t);
      mapping := map[];
      ok := true;
      NothingMoved(tables, t, CPU);
      if s.resumeSwap != 0 {
        ok, mapping := SwapInFront(id, |t| - s.swapLength, s.resumeSwap);
        ArenasTrans(old(View()), p1, View());
      }
      if !ok {
        return;
      }
      ghost var u, grown := blockTables[id], 0;
      PoolParts(View(), id);
      assert blockTables == tables[id := u];
      NothingGrown(blockTables, u);
      if s.runningInflight != 0 {
        var cached := s.Len() - s.inflight;
        var n := CeilDiv(cached + s.runningInflight, blockSize) - CeilDiv(cached, blockSize);
        grown := n;
        ghost var p2 := View();
        ok := AppendBlocks(id, n);
        ArenasTrans(old(View()), p2, View());
      }
      if ok {
        MovedThenGrown(tables, id, t, u, blockTables[id], mapping, grown);
        MovedSameOwners(old(blockTables), tables, t, blockTables[id], mapping);
        WorkLaidOut(blockSize, s, t, u, blockTables[id], tables[id := u], grown);
      }
    }

    method EnsureTable(id: Id)
      requires Valid() && Exclusive(blockTables)
      modifies this
      ensures Valid() && Exclusive(blockTables)
      ensures id in blockTables && blockTables == old(blockTables)[id := TableOf(old(blockTables), id)]
      ensures forall b :: Unowned(blockTables, b) <==> Unowned(old(blockTables), b)
    {
      ghost var p := View();
      if id !in blockTables {
        blockTables := blockTables[id := []];
        SetTableKeepsPoolOk(p, View(), id, []);
        assert forall x :: x in p.tables ==> blockTables[x] == p.tables[x];
      }
    }

    /** Swaps the last `num` GPU blocks of a table out, back to front.  `false` is "Out of memory". */
    method SwapOutFromBack(id: Id, ghost g: nat, num: nat) returns (ok: bool, mapping: map<nat, nat>)
      requires Valid() && Exclusive(blockTables) && id in blockTables
      requires GpuPrefix(blockTables[id], g)
      modifies this, gpu, cpu
      ensures ok <==> Min(num, g) <= |old(cpu.freeBlocks)|
      ensures Valid() && Exclusive(blockTables) && SameArenas(old(View()), View())
      ensures id in blockTables && blockTables == old(blockTables)[id := blockTables[id]]
      ensures ok ==> |blockTables[id]| == |old(blockTables[id])| && GpuPrefix(blockTables[id], g - Min(num, g))
      ensures ok ==> Moved(old(blockTables), old(blockTables[id]), blockTables[id], GPU, mapping)
      ensures ok ==> |gpu.freeBlocks| == |old(gpu.freeBlocks)| + Min(num, g)
      ensures ok ==> |cpu.freeBlocks| == |old(cpu.freeBlocks)| - Min(num, g)
    {
      hide PoolOk, Exclusive, Moved, SameArenas;
      mapping := map[];
      ghost var t := blockTables[id];
      PoolParts(View(), id);
      NothingMoved(blockTables, t, GPU);
      ArenasSame(View());
      var left := num;
      var i := |blockTables[id]|;
      while i > 0
        invariant Valid() && Exclusive(blockTables) && SameArenas(old(View()), View())
        invariant id in blockTables && blockTables == old(blockTables)[id := blockTables[id]]
        invariant 0 <= left <= num && 0 <= i <= |t| == |blockTables[id]|
        invariant num - left == if i >= g then 0 else Min(g - i, num)
        invariant GpuPrefix(blockTables[id], g - (num - left))
        invariant forall k :: 0 <= k < i ==> blockTables[id][k] == t[k]
        invariant Moved(old(blockTables), t, blockTables[id], GPU, mapping)
        invariant |gpu.freeBlocks| == |old(gpu.freeBlocks)| + (num - left)
        invariant |cpu.freeBlocks| == |old(cpu.freeBlocks)| - (num - left)
      {
        i := i - 1;
        if !(blockTables[id][i].device.CPU? || left == 0) {
          ghost var p := View();
          ok, mapping := MoveEntry(id, i, old(View()), t, mapping);
          ArenasTrans(old(View()), p, View());
          if !ok {
            return;
          }
          left := left - 1;
        }
      }
      ok := true;
    }

    /** Gives back every block of one table, each once, in an arbitrary order.  The assertion is that
        "Double free" is never raised. */
    method Free(id: Id)
      requires Valid()
      modifies this, gpu, cpu
      ensures Valid()
      ensures blockTables == old(blockTables) - {id}
      ensures |gpu.refCount| == |old(gpu.refCount)| && |cpu.refCount| == |old(cpu.refCount)|
    {
      hide PoolOk;
      ghost var p := View();
      PoolParts(p, id);
      if id !in blockTables {
        assert blockTables - {id} == blockTables;
        return;
      }
      var t := blockTables[id];
      var todo := set b | b in t;
      while todo != {}
        invariant todo <= set b | b in t
        invariant blockTables == p.tables
        invariant |gpu.refCount| == |p.gpu.refs| && |cpu.refCount| == |p.cpu.refs|
        invariant gpu.View().Ok() && cpu.View().Ok()
        invariant forall b :: p.Has(b) ==>
          View().Ref(b) == p.Ref(b) - if b in t && b !in todo then 1 else 0
        decreases todo
      {
        var b :| b in todo;
        OwnedHasRef(p, id, b);
        var freed := FreeOne(b);
        assert freed;
        todo := todo - {b};
      }
      blockTables := blockTables - {id};
      DropTableKeepsPoolOk(p, View(), id);
    }

    method FreeOne(b: Block) returns (ok: bool)
      requires gpu != cpu && gpu.View().Ok() && cpu.View().Ok() && View().Has(b)
      modifies gpu, cpu
      ensures ok <==> old(View()).Ref(b) != 0
      ensures gpu.View().Ok() && cpu.View().Ok()
      ensures |gpu.refCount| == |old(gpu.refCount)| && |cpu.refCount| == |old(cpu.refCount)|
      ensures ok ==> forall c :: View().Has(c) ==> View().Ref(c) == old(View()).Ref(c) - if c == b then 1 else 0
      ensures b.device.GPU? ==> cpu.View() == old(cpu.View())
      ensures b.device.CPU? ==> gpu.View() == old(gpu.View())
    {
      if b.device.GPU? {
        ok := gpu.Free(b.number);
      } else {
        ok := cpu.Free(b.number);
      }
    }

    /** Frees every table. */
    method Reset()
      requires Valid()
      modifies this, gpu, cpu
      ensures Valid() && blockTables == map[]
      ensures |gpu.freeBlocks| == |gpu.refCount| && |cpu.freeBlocks| == |cpu.refCount|
    {
      while blockTables != map[]
        invariant Valid()
        decreases |blockTables|
      {
        var id :| id in blockTables;
        Free(id);
      }
      NothingOwned(View());
    }

    /** A forked child shares every block of its parent. */
    method Fork(parent: Id, child: Id)
      requires Valid() && parent in blockTables && child !in blockTables
      modifies this, gpu, cpu
      ensures Valid()
      ensures blockTables == old(blockTables)[child := old(blockTables)[parent]]
      ensures gpu.freeBlocks == old(gpu.freeBlocks) && cpu.freeBlocks == old(cpu.freeBlocks)
      ensures |gpu.refCount| == |old(gpu.refCount)| && |cpu.refCount| == |old(cpu.refCount)|
      ensures forall b :: b in old(blockTables)[parent] && View().Has(b) ==> View().Ref(b) == old(View()).Ref(b) + 1
    {
      ghost var p := View();
      var t := blockTables[parent];
      assert TableOk(p, t);
      blockTables := blockTables[child := t];
      var i := 0;
      while i < |t|
        invariant i <= |t| && blockTables == p.tables[child := t]
        invariant gpu.View().Ok() && cpu.View().Ok()
        invariant gpu.freeBlocks == p.gpu.free && cpu.freeBlocks == p.cpu.free
        invariant |gpu.refCount| == |p.gpu.refs| && |cpu.refCount| == |p.cpu.refs|
        invariant forall b :: p.Has(b) ==> View().Ref(b) == p.Ref(b) + if b in t[..i] then 1 else 0
      {
        OwnedHasRef(p, parent, t[i]);
        assert t[..i + 1] == t[..i] + [t[i]];
        if t[i].device.GPU? {
          gpu.Retain(t[i].number);
        } else {
          cpu.Retain(t[i].number);
        }
        i := i + 1;
      }
      assert t[..i] == t;
      SetTableKeepsPoolOk(p, View(), child, t);
    }

    /** The group's blocks on one device; a block shared by several sequences counts once. */
    method GetSeqBlocksByDevice(ids: seq<Id>, d: Device) returns (blocks: set<Block>)
      requires forall x :: x in ids ==> x in blockTables
      ensures blocks == GroupBlocks(blockTables, ids, d)
    {
      blocks := {};
      var i := 0;
      while i < |ids|
        invariant i <= |ids|
        invariant blocks == GroupBlocks(blockTables, ids[..i], d)
      {
        assert ids[..i + 1] == ids[..i] + [ids[i]];
        blocks := blocks + OnDevice(blockTables[ids[i]], d);
        i := i + 1;
      }
      assert ids[..i] == ids;
    }

    method CanSwapOut(ids: seq<Id>, firstNBlocks: int) returns (can: bool)
      requires forall x :: x in ids ==> x in blockTables
      ensures can <==> Wanted(GroupBlocks(blockTables, ids, GPU), firstNBlocks) <= |cpu.freeBlocks|
    {
      var blocks := GetSeqBlocksByDevice(ids, GPU);
      var required := |blocks|;
      if firstNBlocks != -1 {
        required := Min(firstNBlocks, required);
      }
      return required <= |cpu.freeBlocks|;
    }

    /** One entry of a group move: a block already moved for another sequence is shared again on
        the other device; a first sighting takes a fresh block and spends one of `limit`. */
    method MoveSharedEntry(ids: seq<Id>, id: Id, k: nat, from: Device, ghost p0: Pool, m: map<nat, nat>, limit: int)
      returns (ok: bool, mapping: map<nat, nat>, left: int)
      requires Valid() && PoolOk(p0) && p0.tables.Keys == blockTables.Keys
      requires id in ids && id in blockTables && k < |blockTables[id]|
      requires SameArenas(p0, View())
      requires GroupMoved(p0.tables, blockTables, ids, from, m)
      requires blockTables[id][k].device == from && blockTables[id][k] == p0.tables[id][k]
      modifies this, gpu, cpu
      ensures Valid() && SameArenas(p0, View())
      ensures !ok <==> p0.tables[id][k].number !in m && old(View()).On(Other(from)).free == []
      ensures !ok ==> View() == old(View()) && mapping == m && left == limit
      ensures ok ==> |mapping| - |m| == limit - left
      ensures ok ==> |View().On(Other(from)).free| == |old(View()).On(Other(from)).free| - (|mapping| - |m|)
      ensures ok ==> 0 <= |mapping| - |m| <= 1
      ensures ok ==> GroupMoved(p0.tables, blockTables, ids, from, mapping)
      ensures ok ==> id in blockTables && |blockTables[id]| == |old(blockTables)[id]|
      ensures ok ==> blockTables == old(blockTables)[id := old(blockTables)[id][k := blockTables[id][k]]]
      ensures ok ==> blockTables[id][k].device == Other(from)
    {
      hide GroupMoved, PoolOk, NoDup;
      ghost var p := View();
      var b := blockTables[id][k];
      OwnedHasRef(p, id, b);
      PoolParts(p, id);
      var c;
      ok, c := SharedTarget(ids, id, k, from, p0, m);
      if !ok {
        return false, m, limit;
      }
      mapping := m[b.number := c.number];
      left := if b.number in m then limit else limit - 1;
      blockTables := blockTables[id := blockTables[id][k := c]];
      var freed := FreeOne(b);
      assert freed;
      assert TableOk(p, p.tables[id]);
      ReplacedMembers(p.tables[id], k, c);
      SetTableKeepsPoolOk(p, View(), id, p.tables[id][k := c]);
      GroupMovedOne(p0.tables, p.tables, ids, id, k, from, m, mapping, c);
    }

    /** The block that an entry moves to: the one its block already moved to, or a fresh one. */
    method SharedTarget(ids: seq<Id>, id: Id, k: nat, from: Device, ghost p0: Pool, m: map<nat, nat>)
      returns (ok: bool, c: Block)
      requires Valid() && PoolOk(p0) && SameArenas(p0, View())
      requires id in ids && id in blockTables && k < |blockTables[id]|
      requires GroupMoved(p0.tables, blockTables, ids, from, m)
      requires blockTables[id][k].device == from && blockTables[id][k] == p0.tables[id][k]
      modifies gpu, cpu
      ensures gpu.View().Ok() && cpu.View().Ok() && SameArenas(p0, View())
      ensures !ok <==> p0.tables[id][k].number !in m && old(View()).On(Other(from)).free == []
      ensures !ok ==> View() == old(View())
      ensures ok ==> c.device == Other(from) && c !in blockTables[id] && View().Has(c) && Unowned(p0.tables, c)
      ensures ok ==> forall b :: View().Has(b) ==> View().Ref(b) == old(View()).Ref(b) + if b == c then 1 else 0
      ensures ok ==> View().On(from) == old(View()).On(from)
      ensures ok ==> |View().On(Other(from)).free| ==
                     |old(View()).On(Other(from)).free| - if p0.tables[id][k].number in m then 0 else 1
      ensures ok && p0.tables[id][k].number in m ==> m[p0.tables[id][k].number] == c.number
      ensures ok && p0.tables[id][k].number !in m ==> forall n :: n in m ==> m[n] != c.number
    {
      ghost var p := View();
      var n := blockTables[id][k].number;
      if n in m {
        c := Block(Other(from), m[n]);
        MappedElsewhere(p0, p, ids, id, k, from, m);
        RetainOne(c);
        assert Unowned(p0.tables, c);
        return true, c;
      }
      ok, c := TakeOn(Other(from));
      if ok {
        FreshToGroup(p0, p, ids, from, m, c);
      }
    }

    method TakeOn(d: Device) returns (ok: bool, c: Block)
      requires Valid()
      modifies gpu, cpu
      ensures gpu.View().Ok() && cpu.View().Ok() && SameArenas(old(View()), View())
      ensures ok <==> old(View()).On(d).free != []
      ensures !ok ==> View() == old(View())
      ensures ok ==> c.device == d && View().Has(c) && Unowned(blockTables, c)
      ensures ok ==> forall b :: View().Has(b) ==> View().Ref(b) == old(View()).Ref(b) + if b == c then 1 else 0
      ensures ok ==> View().On(Other(d)) == old(View()).On(Other(d))
      ensures ok ==> |View().On(d).free| == |old(View()).On(d).free| - 1
    {
      ghost var p := View();
      var taken;
      if d.GPU? {
        taken := gpu.Allocate();
      } else {
        taken := cpu.Allocate();
      }
      if taken.None? {
        return false, Block(d, 0);
      }
      c := Block(d, taken.value);
      FreeIffUnowned(p, c);
      UnownedNoRef(p, c);
      return true, c;
    }

    method RetainOne(c: Block)
      requires Valid() && View().Has(c) && View().Ref(c) >= 1
      modifies gpu, cpu
      ensures gpu.View().Ok() && cpu.View().Ok() && SameArenas(old(View()), View())
      ensures forall b :: View().Has(b) ==> View().Ref(b) == old(View()).Ref(b) + if b == c then 1 else 0
      ensures View().On(Other(c.device)) == old(View()).On(Other(c.device))
      ensures View().On(c.device).free == old(View()).On(c.device).free
    {
      if c.device.GPU? {
        gpu.Retain(c.number);
      } else {
        cpu.Retain(c.number);
      }
    }

    /** Moves the group's blocks off device `from`, at most `limit` distinct ones when it is not
        negative: `swap_out` and `swap_in` with the devices exchanged.  `!ok` is "Out of memory". */
    method MoveGroup(ids: seq<Id>, from: Device, limit: int) returns (ok: bool, mapping: map<nat, nat>, all: bool)
      requires Valid() && limit >= -1 && NoDup(ids)
      requires forall x :: x in ids ==> x in blockTables
      modifies this, gpu, cpu
      ensures Valid() && SameArenas(old(View()), View())
      ensures ok <==> Wanted(GroupBlocks(old(blockTables), ids, from), limit) <= |old(View()).On(Other(from)).free|
      ensures ok ==> GroupMoved(old(blockTables), blockTables, ids, from, mapping)
      ensures ok ==> |View().On(Other(from)).free| == |old(View()).On(Other(from)).free| - |mapping|
      ensures ok && limit >= 0 ==> |mapping| <= limit
      ensures ok ==> (all <==> NoneInGroup(blockTables, ids, from))
      ensures ok && limit == -1 ==> all
    {
      hide GroupMoved, PoolOk, SameArenas, NoneOn;
      ghost var p0 := View();
      ok, mapping, all := true, map[], true;
      GroupUnmoved(p0.tables, ids, from);
      ArenasSame(p0);
      var left := limit;
      var i := 0;
      while i < |ids|
        invariant i <= |ids| && ok
        invariant Valid() && SameArenas(p0, View())
        invariant blockTables.Keys == p0.tables.Keys
        invariant GroupMoved(p0.tables, blockTables, ids, from, mapping)
        invariant forall j :: i <= j < |ids| ==> blockTables[ids[j]] == p0.tables[ids[j]]
        invariant |View().On(Other(from)).free| == |p0.On(Other(from)).free| - |mapping|
        invariant |mapping| == limit - left && (limit >= 0 ==> left >= 0) && (limit < 0 ==> left < 0)
        invariant all <==> NoneInGroup(blockTables, ids[..i], from)
        invariant left != 0 ==> all
      {
        var row;
        ghost var tables := blockTables;
        ok, mapping, left, row := MoveRow(ids, i, from, p0, mapping, left);
        NoneInGroupNext(tables, blockTables, ids, i, from);
        GroupCounts(p0.tables, blockTables, ids, from, mapping);
        if !ok {
          return;
        }
        all := all && row;
        i := i + 1;
      }
      assert ids[..i] == ids;
      GroupCounts(p0.tables, blockTables, ids, from, mapping);
    }

    method MoveRow(ids: seq<Id>, i: nat, from: Device, ghost p0: Pool, m: map<nat, nat>, limit: int)
      returns (ok: bool, mapping: map<nat, nat>, left: int, all: bool)
      requires Valid() && PoolOk(p0) && SameArenas(p0, View()) && i < |ids|
      requires blockTables.Keys == p0.tables.Keys
      requires ids[i] in blockTables && blockTables[ids[i]] == p0.tables[ids[i]]
      requires GroupMoved(p0.tables, blockTables, ids, from, m)
      requires |View().On(Other(from)).free| == |p0.On(Other(from)).free| - |m|
      modifies this, gpu, cpu
      ensures Valid() && SameArenas(p0, View())
      ensures GroupMoved(p0.tables, blockTables, ids, from, mapping)
      ensures ids[i] in blockTables && blockTables == old(blockTables)[ids[i] := blockTables[ids[i]]]
      ensures |View().On(Other(from)).free| == |p0.On(Other(from)).free| - |mapping|
      ensures |mapping| - |m| == limit - left && (limit >= 0 ==> left >= 0) && (limit < 0 ==> left < 0)
      ensures |mapping| >= |m|
      ensures ok ==> (all <==> NoneOn(blockTables[ids[i]], from)) && (left != 0 ==> all)
      ensures !ok ==> left != 0 && View().On(Other(from)).free == []
      ensures !ok ==>
        ids[i] in p0.tables && exists k :: 0 <= k < |p0.tables[ids[i]]| && Missed(p0.tables[ids[i]][k], from, mapping)
    {
      hide GroupMoved, PoolOk, NoneOn, SameArenas, NoneBefore, Missed;
      var id := ids[i];
      ghost var t := p0.tables[id];
      mapping, left, all := m, limit, true;
      NoneBeforeStart(t, from);
      var k := 0;
      while k < |blockTables[id]|
        invariant Valid() && SameArenas(p0, View()) && blockTables.Keys == p0.tables.Keys
        invariant id in blockTables && blockTables == old(blockTables)[id := blockTables[id]]
        invariant GroupMoved(p0.tables, blockTables, ids, from, mapping)
        invariant k <= |t| == |blockTables[id]|
        invariant forall j :: k <= j < |t| ==> blockTables[id][j] == t[j]
        invariant |View().On(Other(from)).free| == |p0.On(Other(from)).free| - |mapping|
        invariant |mapping| - |m| == limit - left && (limit >= 0 ==> left >= 0) && (limit < 0 ==> left < 0)
        invariant |mapping| >= |m|
        invariant all <==> NoneBefore(blockTables[id], k, from)
        invariant left != 0 ==> all
      {
        ghost var u := blockTables[id];
        if blockTables[id][k].device == Other(from) || left == 0 {
          if blockTables[id][k].device == from {
            all := false;
          }
        } else {
          ok, mapping, left := MoveSharedEntry(ids, id, k, from, p0, mapping, left);
          if !ok {
            MissedHere(p0.tables[id][k], from, mapping);
            return;
          }
        }
        NoneBeforeNext(u, blockTables[id], k, from);
        k := k + 1;
      }
      NoneBeforeEnd(blockTables[id], from);
      ok := true;
    }

    /** A full `swap_out` and a full `swap_in` each keep which table entries are shared. */
    method SwapOut(ids: seq<Id>, firstNBlocks: int) returns (ok: bool, mapping: map<nat, nat>, allSwappedOut: bool)
      requires Valid() && firstNBlocks >= -1 && NoDup(ids)
      requires forall x :: x in ids ==> x in blockTables
      modifies this, gpu, cpu
      ensures Valid() && SameArenas(old(View()), View())
      ensures ok <==> Wanted(GroupBlocks(old(blockTables), ids, GPU), firstNBlocks) <= |old(cpu.freeBlocks)|
      ensures ok ==> GroupMoved(old(blockTables), blockTables, ids, GPU, mapping)
      ensures ok ==> |cpu.freeBlocks| == |old(cpu.freeBlocks)| - |mapping|
      ensures ok && firstNBlocks >= 0 ==> |mapping| <= firstNBlocks
      ensures ok ==> (allSwappedOut <==> NoneInGroup(blockTables, ids, GPU))
      ensures ok && firstNBlocks == -1 ==> allSwappedOut && SameSharing(old(blockTables), blockTables, ids)
    {
      ok, mapping, allSwappedOut := MoveGroup(ids, GPU, firstNBlocks);
      if ok && firstNBlocks == -1 {
        FullMoveKeepsSharing(old(blockTables), blockTables, ids, GPU, mapping);
      }
    }

    method SwapIn(ids: seq<Id>, maxNumBlocks: int) returns (ok: bool, mapping: map<nat, nat>)
      requires Valid() && maxNumBlocks >= -1 && NoDup(ids)
      requires forall x :: x in ids ==> x in blockTables
      modifies this, gpu, cpu
      ensures Valid() && SameArenas(old(View()), View())
      ensures ok <==> Wanted(GroupBlocks(old(blockTables), ids, CPU), maxNumBlocks) <= |old(gpu.freeBlocks)|
      ensures ok ==> GroupMoved(old(blockTables), blockTables, ids, CPU, mapping)
      ensures ok && maxNumBlocks >= 0 ==> |mapping| <= maxNumBlocks
      ensures ok && maxNumBlocks == -1 ==>
        NoneInGroup(blockTables, ids, CPU) && SameSharing(old(blockTables), blockTables, ids)
    {
      var all;
      ok, mapping, all := MoveGroup(ids, CPU, maxNumBlocks);
      if ok && maxNumBlocks == -1 {
        FullMoveKeepsSharing(old(blockTables), blockTables, ids, CPU, mapping);
      }
    }
  }

  /** Two entries of the group's tables name the same block after exactly when they did before. */
  ghost predicate SameSharing(tables: map<Id, Table>, moved: map<Id, Table>, ids: seq<Id>) {
    forall x, y, i, j ::
      x in ids && y in ids && x in tables && y in tables && x in moved && y in moved &&
      0 <= i < |tables[x]| && 0 <= j < |tables[y]| ==>
        |moved[x]| == |tables[x]| && |moved[y]| == |tables[y]| &&
        (moved[x][i] == moved[y][j] <==> tables[x][i] == tables[y][j])
  }

  lemma FullMoveKeepsSharing(tables: map<Id, Table>, moved: map<Id, Table>, ids: seq<Id>, from: Device,
                             m: map<nat, nat>)
    requires GroupMoved(tables, moved, ids, from, m)
    requires forall x :: x in ids ==> x in tables
    requires NoneInGroup(moved, ids, from)
    ensures SameSharing(tables, moved, ids)
  {
    forall x, y, i, j | x in ids && y in ids && 0 <= i < |tables[x]| && 0 <= j < |tables[y]|
      ensures |moved[x]| == |tables[x]| && |moved[y]| == |tables[y]|
      ensures moved[x][i] == moved[y][j] <==> tables[x][i] == tables[y][j]
    {
      EntrySharing(tables, moved, from, m, x, i, y, j);
    }
  }

  lemma EntrySharing(tables: map<Id, Table>, moved: map<Id, Table>, from: Device, m: map<nat, nat>,
                     x: Id, i: nat, y: Id, j: nat)
    requires x in tables && y in tables && x in moved && y in moved && OneToOne(m)
    requires TableMoved(tables, tables[x], moved[x], from, m) && TableMoved(tables, tables[y], moved[y], from, m)
    requires NoneOn(moved[x], from) && NoneOn(moved[y], from)
    requires i < |tables[x]| && j < |tables[y]|
    ensures moved[x][i] == moved[y][j] <==> tables[x][i] == tables[y][j]
  {
    assert moved[x][i].device != from && moved[y][j].device != from;
    assert tables[x][i] in tables[x] && tables[y][j] in tables[y];
  }

  /** Swapping a group out completely and back in completely restores its sharing pattern, all on the GPU. */
  lemma SwapRoundTrip(tables: map<Id, Table>, out: map<Id, Table>, back: map<Id, Table>, ids: seq<Id>,
                      m: map<nat, nat>, m': map<nat, nat>)
    requires forall x :: x in ids ==> x in tables
    requires GroupMoved(tables, out, ids, GPU, m) && NoneInGroup(out, ids, GPU)
    requires GroupMoved(out, back, ids, CPU, m') && NoneInGroup(back, ids, CPU)
    ensures SameSharing(tables, back, ids)
    ensures forall x, k :: x in ids && 0 <= k < |back[x]| ==> back[x][k].device.GPU?
  {
    FullMoveKeepsSharing(tables, out, ids, GPU, m);
    FullMoveKeepsSharing(out, back, ids, CPU, m');
    forall x, y, i, j | x in ids && y in ids && 0 <= i < |tables[x]| && 0 <= j < |tables[y]|
      ensures |back[x]| == |tables[x]| && |back[y]| == |tables[y]|
      ensures back[x][i] == back[y][j] <==> tables[x][i] == tables[y][j]
    {
      assert |out[x]| == |tables[x]| && |out[y]| == |tables[y]|;
    }
    forall x, k | x in ids && 0 <= k < |back[x]| ensures back[x][k].device.GPU? {
      assert NoneOn(back[x], CPU);
    }
  }

  ghost predicate NoneBefore(t: Table, n: nat, d: Device)
    requires n <= |t|
  {
    forall k :: 0 <= k < n ==> t[k].device != d
  }

  lemma NoneBeforeNext(t: Table, u: Table, k: nat, d: Device)
    requires k < |t| == |u| && forall j :: 0 <= j < k ==> t[j] == u[j]
    ensures NoneBefore(u, k + 1, d) <==> NoneBefore(t, k, d) && u[k].device != d
  {
  }

  lemma NoneBeforeStart(t: Table, d: Device)
    ensures NoneBefore(t, 0, d)
  {
  }

  lemma MissedHere(b: Block, from: Device, m: map<nat, nat>)
    requires b.device == from && b.number !in m
    ensures Missed(b, from, m)
  {
  }

  lemma NoneBeforeEnd(t: Table, d: Device)
    ensures NoneBefore(t, |t|, d) <==> NoneOn(t, d)
  {
  }

  ghost predicate Missed(b: Block, from: Device, m: map<nat, nat>) {
    b.device == from && b.number !in m
  }

  ghost predicate NoneInGroup(tables: map<Id, Table>, ids: seq<Id>, d: Device)
    requires forall x :: x in ids ==> x in tables
  {
    forall x :: x in ids ==> NoneOn(tables[x], d)
  }

  lemma NoneInGroupNext(tables: map<Id, Table>, tables': map<Id, Table>, ids: seq<Id>, i: nat, d: Device)
    requires i < |ids| && NoDup(ids) && forall x :: x in ids ==> x in tables
    requires ids[i] in tables' && tables' == tables[ids[i] := tables'[ids[i]]]
    ensures NoneInGroup(tables', ids[..i + 1], d) <==> NoneInGroup(tables, ids[..i], d) && NoneOn(tables'[ids[i]], d)
  {
    hide NoneOn;
    assert ids[..i + 1] == ids[..i] + [ids[i]];
    assert ids[i] !in ids[..i];
    assert forall x :: x in ids[..i] ==> x in ids && tables'[x] == tables[x];
    assert ids[i] in ids[..i + 1];
  }

  lemma GroupUnmoved(tables: map<Id, Table>, ids: seq<Id>, from: Device)
    ensures GroupMoved(tables, tables, ids, from, map[])
  {
  }

  /** A mapping records at most the group's blocks, and all of them only once none is left behind. */
  lemma GroupCounts(tables: map<Id, Table>, moved: map<Id, Table>, ids: seq<Id>, from: Device, m: map<nat, nat>)
    requires GroupMoved(tables, moved, ids, from, m)
    requires forall x :: x in ids ==> x in tables
    ensures |m| <= |GroupBlocks(tables, ids, from)|
    ensures (exists b :: b in GroupBlocks(tables, ids, from) && Missed(b, from, m)) ==>
      |m| < |GroupBlocks(tables, ids, from)|
    ensures NoneInGroup(moved, ids, from) ==> |m| == |GroupBlocks(tables, ids, from)|
  {
    var g := GroupBlocks(tables, ids, from);
    WitnessedInGroup(tables, moved, ids, from, m);
    KeysWithin(g, from, m);
    if NoneInGroup(moved, ids, from) {
      forall b | b in g ensures !Missed(b, from, m) {
        AllMoved(tables, moved, ids, from, m, b);
      }
    }
  }

  lemma KeysWithin(g: set<Block>, from: Device, m: map<nat, nat>)
    requires forall b :: b in g ==> b.device == from
    requires m.Keys <= set b | b in g :: b.number
    ensures |m| <= |g|
    ensures if exists b :: b in g && Missed(b, from, m) then |m| < |g| else |m| == |g|
  {
    var numbers := set b | b in g :: b.number;
    NumbersOfBlocks(g, from);
    SubsetSizes(m.Keys, numbers);
    if b :| b in g && Missed(b, from, m) {
      assert b.number in numbers;
    } else {
      assert m.Keys == numbers;
    }
  }

  lemma WitnessedInGroup(tables: map<Id, Table>, moved: map<Id, Table>, ids: seq<Id>, from: Device, m: map<nat, nat>)
    requires Witnessed(tables, moved, ids, from, m)
    requires forall x :: x in ids ==> x in tables
    ensures m.Keys <= set b | b in GroupBlocks(tables, ids, from) :: b.number
  {
    forall n | n in m ensures Block(from, n) in GroupBlocks(tables, ids, from) {
      var x :| x in ids && Witness(tables, moved, x, from, n, m[n]);
    }
  }

  lemma AllMoved(tables: map<Id, Table>, moved: map<Id, Table>, ids: seq<Id>, from: Device, m: map<nat, nat>, b: Block)
    requires moved.Keys == tables.Keys && TablesMoved(tables, moved, ids, from, m)
    requires forall x :: x in ids ==> x in tables
    requires NoneInGroup(moved, ids, from) && b in GroupBlocks(tables, ids, from)
    ensures b.number in m
  {
    var x :| x in ids && b in tables[x];
    var k :| 0 <= k < |tables[x]| && tables[x][k] == b;
    assert TableMoved(tables, tables[x], moved[x], from, m);
    assert NoneOn(moved[x], from);
  }

  lemma SubsetSizes(s: set<nat>, t: set<nat>)
    requires s <= t
    ensures |s| <= |t|
    ensures s != t ==> |s| < |t|
  {
    assert |t| == |s| + |t - s| by { assert t == s + (t - s); }
  }

  ghost predicate NoneOn(t: Table, d: Device) {
    forall k :: 0 <= k < |t| ==> t[k].device != d
  }

  ghost predicate SameArenas(p: Pool, q: Pool) {
    |p.gpu.refs| == |q.gpu.refs| && |p.cpu.refs| == |q.cpu.refs|
  }

  function GroupBlocks(tables: map<Id, Table>, ids: seq<Id>, d: Device): set<Block>
    requires forall x :: x in ids ==> x in tables
  {
    set x, b | x in ids && b in tables[x] && b.device == d :: b
  }

  function Wanted(blocks: set<Block>, firstNBlocks: int): int {
    if firstNBlocks == -1 then |blocks| else Min(firstNBlocks, |blocks|)
  }

  /** `moved` is `tables` after blocks of device `from` in the tables of `ids` were replaced through
      the one-to-one mapping `m` onto blocks that no table listed. */
  ghost predicate GroupMoved(tables: map<Id, Table>, moved: map<Id, Table>, ids: seq<Id>, from: Device,
                             m: map<nat, nat>) {
    && moved.Keys == tables.Keys
    && TablesMoved(tables, moved, ids, from, m)
    && OneToOne(m)
    && FreshTargets(tables, from, m)
    && Witnessed(tables, moved, ids, from, m)
  }

  ghost predicate TablesMoved(tables: map<Id, Table>, moved: map<Id, Table>, ids: seq<Id>, from: Device,
                              m: map<nat, nat>)
    requires moved.Keys == tables.Keys
  {
    forall x :: x in tables ==>
      if x in ids then TableMoved(tables, tables[x], moved[x], from, m) else moved[x] == tables[x]
  }

  ghost predicate FreshTargets(tables: map<Id, Table>, from: Device, m: map<nat, nat>) {
    forall n :: n in m ==> Unowned(tables, Block(Other(from), m[n]))
  }

  ghost predicate Witnessed(tables: map<Id, Table>, moved: map<Id, Table>, ids: seq<Id>, from: Device,
                            m: map<nat, nat>) {
    forall n :: n in m ==> exists x :: x in ids && Witness(tables, moved, x, from, n, m[n])
  }

  ghost predicate OneToOne(m: map<nat, nat>) {
    forall a, b :: a in m && b in m && m[a] == m[b] ==> a == b
  }

  /** Sequence `x` lost `from` block `n` and now lists block `c` of the other device. */
  ghost predicate Witness(tables: map<Id, Table>, moved: map<Id, Table>, x: Id, from: Device, n: nat, c: nat) {
    && x in tables && Block(from, n) in tables[x]
    && x in moved && Block(Other(from), c) in moved[x]
  }

  ghost predicate TableMoved(tables: map<Id, Table>, t: Table, u: Table, from: Device, m: map<nat, nat>) {
    && |u| == |t|
    && forall k :: 0 <= k < |t| ==> u[k] == t[k] || MovedEntry(tables, t[k], u[k], from, m)
  }

  lemma MappedElsewhere(p0: Pool, p: Pool, ids: seq<Id>, id: Id, k: nat, from: Device, m: map<nat, nat>)
    requires PoolOk(p0) && PoolOk(p)
    requires GroupMoved(p0.tables, p.tables, ids, from, m)
    requires id in ids && id in p.tables && k < |p.tables[id]|
    requires p.tables[id][k].device == from && p.tables[id][k] == p0.tables[id][k] && p.tables[id][k].number in m
    ensures var c := Block(Other(from), m[p.tables[id][k].number]); c !in p.tables[id] && p.Has(c) && p.Ref(c) >= 1
  {
    var n := p.tables[id][k].number;
    var x :| x in ids && Witness(p0.tables, p.tables, x, from, n, m[n]);
    OwnedHasRef(p, x, Block(Other(from), m[n]));
    assert TableOk(p0, p0.tables[id]);
    MappedNotListed(p0.tables, p0.tables[id], p.tables[id], k, from, m);
  }

  lemma MappedNotListed(tables: map<Id, Table>, t: Table, u: Table, k: nat, from: Device, m: map<nat, nat>)
    requires NoDup(t) && TableMoved(tables, t, u, from, m) && OneToOne(m)
    requires exists id :: id in tables && tables[id] == t
    requires k < |u| && u[k] == t[k] && t[k].device == from && t[k].number in m
    requires Unowned(tables, Block(Other(from), m[t[k].number]))
    ensures Block(Other(from), m[t[k].number]) !in u
  {
    var c := Block(Other(from), m[t[k].number]);
    var id :| id in tables && tables[id] == t;
    forall j | 0 <= j < |u| ensures u[j] != c {
      assert t[j] in tables[id];
      assert j != k ==> t[j] != t[k];
    }
  }

  lemma FreshToGroup(p0: Pool, p: Pool, ids: seq<Id>, from: Device, m: map<nat, nat>, c: Block)
    requires GroupMoved(p0.tables, p.tables, ids, from, m)
    requires c.device == Other(from) && Unowned(p.tables, c)
    ensures Unowned(p0.tables, c)
    ensures forall n :: n in m ==> m[n] != c.number
  {
    forall x, k | x in p0.tables && 0 <= k < |p0.tables[x]| ensures p0.tables[x][k] != c {
      if p.tables[x] != p0.tables[x] {
        assert TableMoved(p0.tables, p0.tables[x], p.tables[x], from, m);
        assert p.tables[x][k] in p.tables[x];
      }
    }
    forall n | n in m ensures m[n] != c.number {
      var x :| x in ids && Witness(p0.tables, p.tables, x, from, n, m[n]);
    }
  }

  lemma GroupMovedOne(tables: map<Id, Table>, moved: map<Id, Table>, ids: seq<Id>, id: Id, k: nat, from: Device,
                      m: map<nat, nat>, m': map<nat, nat>, c: Block)
    requires GroupMoved(tables, moved, ids, from, m)
    requires id in ids && id in tables && k < |moved[id]|
    requires moved[id][k] == tables[id][k] && moved[id][k].device == from
    requires c.device == Other(from) && Unowned(tables, c)
    requires m' == m[tables[id][k].number := c.number]
    requires tables[id][k].number !in m ==> forall n :: n in m ==> m[n] != c.number
    requires tables[id][k].number in m ==> m[tables[id][k].number] == c.number
    ensures GroupMoved(tables, moved[id := moved[id][k := c]], ids, from, m')
  {
    var n := tables[id][k].number;
    TablesMovedOne(tables, moved, ids, id, k, from, m, m', c);
    WitnessedOne(tables, moved, ids, id, k, from, m, m', c);
    OneToOneAfter(m, n, c.number);
  }

  lemma TablesMovedOne(tables: map<Id, Table>, moved: map<Id, Table>, ids: seq<Id>, id: Id, k: nat, from: Device,
                       m: map<nat, nat>, m': map<nat, nat>, c: Block)
    requires moved.Keys == tables.Keys && TablesMoved(tables, moved, ids, from, m)
    requires id in ids && id in tables && k < |moved[id]| && k < |tables[id]| && tables[id][k].device == from
    requires c.device == Other(from) && Unowned(tables, c)
    requires m' == m[tables[id][k].number := c.number]
    requires tables[id][k].number in m ==> m[tables[id][k].number] == c.number
    ensures TablesMoved(tables, moved[id := moved[id][k := c]], ids, from, m')
  {
    forall x | x in tables && x in ids
      ensures TableMoved(tables, tables[x], moved[id := moved[id][k := c]][x], from, m')
    {
      TableMovedOne(tables, tables[x], moved[x], k, from, m, m', c, tables[id][k].number, x == id);
    }
  }

  lemma WitnessedOne(tables: map<Id, Table>, moved: map<Id, Table>, ids: seq<Id>, id: Id, k: nat, from: Device,
                     m: map<nat, nat>, m': map<nat, nat>, c: Block)
    requires Witnessed(tables, moved, ids, from, m)
    requires id in ids && id in tables && id in moved && k < |moved[id]| && k < |tables[id]|
    requires tables[id][k].device == from && moved[id][k].device == from && c.device == Other(from)
    requires m' == m[tables[id][k].number := c.number]
    ensures Witnessed(tables, moved[id := moved[id][k := c]], ids, from, m')
  {
    var all, n0 := moved[id := moved[id][k := c]], tables[id][k].number;
    forall n | n in m' ensures exists x :: x in ids && Witness(tables, all, x, from, n, m'[n]) {
      if n == n0 {
        assert all[id][k] == c;
        assert Witness(tables, all, id, from, n, m'[n]);
      } else {
        WitnessKept(tables, moved, ids, id, k, from, n, m[n], c);
      }
    }
  }

  lemma OneToOneAfter(m: map<nat, nat>, n: nat, c: nat)
    requires OneToOne(m)
    requires if n in m then m[n] == c else forall x :: x in m ==> m[x] != c
    ensures OneToOne(m[n := c])
  {
    assert n in m ==> m[n := c] == m;
  }

  lemma TableMovedOne(tables: map<Id, Table>, t: Table, u: Table, k: nat, from: Device,
                      m: map<nat, nat>, m': map<nat, nat>, c: Block, n: nat, changed: bool)
    requires TableMoved(tables, t, u, from, m) && m' == m[n := c.number]
    requires n in m ==> m[n] == c.number
    requires c.device == Other(from) && Unowned(tables, c)
    requires changed ==> k < |u| && t[k] == Block(from, n)
    ensures TableMoved(tables, t, if changed then u[k := c] else u, from, m')
  {
    forall j | 0 <= j < |t| && u[j] != t[j] ensures MovedEntry(tables, t[j], u[j], from, m') {
      assert MovedEntry(tables, t[j], u[j], from, m);
    }
  }

  lemma WitnessKept(tables: map<Id, Table>, moved: map<Id, Table>, ids: seq<Id>, id: Id, k: nat, from: Device,
                    n: nat, n': nat, c: Block)
    requires exists x :: x in ids && Witness(tables, moved, x, from, n, n')
    requires id in moved && k < |moved[id]| && moved[id][k].device == from
    ensures exists x :: x in ids && Witness(tables, moved[id := moved[id][k := c]], x, from, n, n')
  {
    var x :| x in ids && Witness(tables, moved, x, from, n, n');
    KeptMember(moved[x], k, c, Block(Other(from), n'), x == id);
    assert Witness(tables, moved[id := moved[id][k := c]], x, from, n, n');
  }

  lemma KeptMember(t: Table, k: nat, c: Block, b: Block, changed: bool)
    requires b in t && (changed ==> k < |t| && t[k] != b)
    ensures changed ==> b in t[k := c]
  {
    if changed {
      var j :| 0 <= j < |t| && t[j] == b;
      assert t[k := c][j] == b;
    }
  }

  function Min(a: int, b: int): int {
    if a < b then a else b
  }

  function Other(d: Device): Device {
    if d.GPU? then CPU else GPU
  }

  /** One entry went to the block popped from the other device's free list, and its old block came free. */
  ghost predicate Rehomed(p: Pool, q: Pool, id: Id, i: nat)
    requires id in p.tables && i < |p.tables[id]|
  {
    var b := p.tables[id][i];
    var from, to := p.On(b.device), p.On(Other(b.device));
    && to.free != []
    && (var c := Block(Other(b.device), to.free[|to.free| - 1]);
        && q.tables == p.tables[id := p.tables[id][i := c]]
        && q.On(Other(b.device)).free == to.free[..|to.free| - 1]
        && q.On(b.device).free == from.free + [b.number]
        && Unowned(p.tables, c))
  }

  /** `u` is table `t` with some blocks of device `from` moved to the other device, recorded in `m`,
      and some GPU blocks appended; every new block belonged to no table of `tables`. */
  ghost predicate Moved(tables: map<Id, Table>, t: Table, u: Table, from: Device, m: map<nat, nat>) {
    && |t| <= |u| && NoDup(u)
    && (forall k :: 0 <= k < |t| ==> u[k] == t[k] || MovedEntry(tables, t[k], u[k], from, m))
    && (forall k :: |t| <= k < |u| ==> u[k].device.GPU? && Unowned(tables, u[k]))
    && (forall n :: n in m ==> exists k :: 0 <= k < |t| && t[k] == Block(from, n) && u[k] != t[k])
  }

  ghost predicate MovedEntry(tables: map<Id, Table>, b: Block, c: Block, from: Device, m: map<nat, nat>) {
    && b.device == from && c.device == Other(from)
    && Unowned(tables, c)
    && b.number in m && m[b.number] == c.number
  }

  lemma ExclusiveRef(p: Pool, id: Id, b: Block)
    requires PoolOk(p) && Exclusive(p.tables) && id in p.tables && b in p.tables[id]
    ensures p.Has(b) && p.Ref(b) == 1
  {
    OwnedHasRef(p, id, b);
    assert Owners(p.tables, b) == {id};
  }

  /** One more re-homed entry extends a move that has left that entry alone so far. */
  lemma RehomedMoves(p0: Pool, p: Pool, q: Pool, id: Id, i: nat, t: Table, m: map<nat, nat>)
    requires PoolOk(p) && PoolOk(q) && id in p.tables && id in q.tables
    requires p0.tables.Keys == p.tables.Keys && p.tables == p0.tables[id := p.tables[id]] && p0.tables[id] == t
    requires NoDup(t) && i < |t| == |p.tables[id]| && p.tables[id][i] == t[i]
    requires Exclusive(p.tables)
    requires Rehomed(p, q, id, i)
    requires Moved(p0.tables, t, p.tables[id], t[i].device, m)
    ensures Exclusive(q.tables)
    ensures Moved(p0.tables, t, q.tables[id], t[i].device, m[t[i].number := q.tables[id][i].number])
  {
    var u, v, c := p.tables[id], q.tables[id], q.tables[id][i];
    assert c !in u;
    assert v == u[i := c];
    ReplacedMembers(u, i, c);
    forall x | x in p0.tables ensures c !in p0.tables[x] {
      if x != id {
        assert p0.tables[x] == p.tables[x];
      }
    }
    var m' := m[t[i].number := c.number];
    forall k | 0 <= k < |t| ensures v[k] == t[k] || MovedEntry(p0.tables, t[k], v[k], t[i].device, m') {
      if k != i {
        assert v[k] == u[k];
        assert t[k] != t[i];
      }
    }
    forall n | n in m' ensures exists k :: 0 <= k < |t| && t[k] == Block(t[i].device, n) && v[k] != t[k] {
      if n == t[i].number {
        assert v[i] != t[i];
      } else {
        var k :| 0 <= k < |t| && t[k] == Block(t[i].device, n) && u[k] != t[k];
        assert v[k] == u[k];
      }
    }
    assert p0.tables.Keys == q.tables.Keys;
  }

  ghost predicate Grown(tables: map<Id, Table>, t: Table, u: Table, n: nat) {
    && |u| == |t| + n && NoDup(u)
    && (forall k :: 0 <= k < |t| ==> u[k] == t[k])
    && (forall k :: |t| <= k < |u| ==> u[k].device.GPU? && Unowned(tables, u[k]))
  }

  lemma GrownByOne(p0: Pool, p: Pool, q: Pool, id: Id, b: Block, n: nat)
    requires PoolOk(p) && id in p0.tables && id in p.tables
    requires p.tables == p0.tables[id := p.tables[id]]
    requires Grown(p0.tables, p0.tables[id], p.tables[id], n)
    requires Exclusive(p.tables) && b.device.GPU? && Unowned(p.tables, b)
    requires q.tables == p.tables[id := p.tables[id] + [b]]
    ensures Exclusive(q.tables)
    ensures Grown(p0.tables, p0.tables[id], q.tables[id], n + 1)
  {
    var t, u := p0.tables[id], p.tables[id];
    assert b !in u && b !in t;
    forall x | x in p0.tables ensures b !in p0.tables[x] {
      assert x != id ==> p0.tables[x] == p.tables[x];
    }
  }

  lemma MovedThenGrown(tables: map<Id, Table>, id: Id, t: Table, u: Table, v: Table, m: map<nat, nat>, n: nat)
    requires id in tables && tables[id] == t && |u| == |t|
    requires Moved(tables, t, u, CPU, m)
    requires Grown(tables[id := u], u, v, n)
    ensures Moved(tables, t, v, CPU, m)
  {
    forall k | |t| <= k < |v| ensures Unowned(tables, v[k]) {
      var all := tables[id := u];
      forall x | x in tables ensures v[k] !in tables[x] {
        assert v[k] !in all[x];
      }
    }
  }

  lemma NothingMoved(tables: map<Id, Table>, t: Table, from: Device)
    requires NoDup(t)
    ensures Moved(tables, t, t, from, map[])
  {
  }

  lemma ArenasSame(p: Pool)
    ensures SameArenas(p, p)
  {
  }

  lemma ArenasKept(p: Pool, q: Pool)
    requires q.gpu == p.gpu && q.cpu == p.cpu
    ensures SameArenas(p, q)
  {
  }

  lemma ArenasTrans(p: Pool, q: Pool, r: Pool)
    requires SameArenas(p, q) && SameArenas(q, r)
    ensures SameArenas(p, r)
  {
  }

  lemma NothingGrown(tables: map<Id, Table>, t: Table)
    ensures NoDup(t) ==> Grown(tables, t, t, 0)
  {
  }

  lemma MovedSameOwners(tables: map<Id, Table>, tables': map<Id, Table>, t: Table, u: Table, m: map<nat, nat>)
    requires Moved(tables', t, u, CPU, m)
    requires forall b :: Unowned(tables', b) <==> Unowned(tables, b)
    ensures Moved(tables, t, u, CPU, m)
  {
  }

  lemma BeforeWork(b: nat, s: SeqRec, t: Table)
    requires b > 0 && s.Workload() && Layout(b, s.Cleared(), t)
    ensures s.Sane() && s.swapLength <= |t| && GpuPrefix(t, |t| - s.swapLength)
    ensures 0 <= NumRequiredBlocksInflight(s, b)
    ensures s.runningInflight == 0 ==> NumRequiredBlocksInflight(s, b) == 0
  {
    CeilDivMono(s.Cached(), s.Cached() + s.runningInflight, b);
  }

  /** Planned blocks swapped in from the front, then appended, leave the table the planned work needs. */
  lemma WorkLaidOut(b: nat, s: SeqRec, t: Table, u: Table, v: Table, tables: map<Id, Table>, n: nat)
    requires b > 0 && s.Sane() && s.Workload() && Layout(b, s.Cleared(), t) && |u| == |t|
    requires GpuPrefix(u, |t| - s.swapLength + s.resumeSwap)
    requires n == NumRequiredBlocksInflight(s, b) && (s.runningInflight == 0 ==> n == 0)
    requires Grown(tables, u, v, n)
    ensures PendingLayout(b, s, v)
  {
  }
}
