/** Writing the keys and values of one iteration into the slots that the worker computed: no two
    tokens collide, no cached token is overwritten, and afterwards every forwarded token is where its
    block table says. */
module CacheWrites {
  import opened Basics
  import opened Blocks
  import opened Sequences
  import opened Layouts
  import opened System
  import opened Memory
  import opened Steps
  import opened Worker

  /** The worker's view of a scheduled request agrees with the scheduler's state. */
  ghost predicate FromBatch(s: Sys, m: Meta) {
    && m.id in s.place && s.place[m.id].AtBatch?
    && m.id in s.data && m.data == s.data[m.id]
    && m.id in s.pool.tables && m.table == s.pool.tables[m.id]
    && (m.isPrompt ==> m.data.Cached() == 0)
  }

  ghost predicate Batch(s: Sys, ms: seq<Meta>) {
    && (forall m {:trigger FromBatch(s, m)} :: m in ms ==> FromBatch(s, m))
    && (forall i, j :: 0 <= i < j < |ms| ==> ms[i].id != ms[j].id)
  }

  lemma MetaReady(s: Sys, m: Meta)
    requires Inv(s) && FromBatch(s, m)
    ensures m.Ready(s.b) && m.Start() == m.data.Cached() && NoDup(m.table)
    ensures m.data.runningInflight > 0 ==> forall k :: 0 <= k < |m.table| ==> m.table[k].device.GPU?
  {
    assert GoodAt(s, m.id);
    assert TableOk(s.pool, s.pool.tables[m.id]);
  }

  lemma BatchReady(s: Sys, ms: seq<Meta>)
    requires Inv(s) && Batch(s, ms)
    ensures AllReady(s.b, ms)
  {
    forall m | m in ms ensures m.Ready(s.b) {
      assert FromBatch(s, m);
      MetaReady(s, m);
    }
  }

  /** Every cell belongs to one request of the batch. */
  lemma {:induction false} CellOrigin(b: nat, ms: seq<Meta>, k: nat) returns (n: nat, i: nat)
    requires AllReady(b, ms) && k < |AllCells(b, ms)|
    ensures n < |ms| && ms[n].Ready(b) && i < ms[n].data.runningInflight && AllCells(b, ms)[k] == CellAt(b, ms[n], i)
    ensures k == |AllCells(b, ms[..n])| + i
  {
    var last := |ms| - 1;
    var before := AllCells(b, ms[..last]);
    if k < |before| {
      n, i := CellOrigin(b, ms[..last], k);
      assert ms[..last][..n] == ms[..n];
    } else {
      n, i := last, k - |before|;
    }
  }

  /** Every planned token of every request has its cell. */
  lemma {:induction false} CellExists(b: nat, ms: seq<Meta>, n: nat, i: nat) returns (k: nat)
    requires AllReady(b, ms) && n < |ms| && ms[n].Ready(b) && i < ms[n].data.runningInflight
    ensures k < |AllCells(b, ms)| && AllCells(b, ms)[k] == CellAt(b, ms[n], i)
  {
    var last := |ms| - 1;
    if n == last {
      k := |AllCells(b, ms[..last])| + i;
    } else {
      k := CellExists(b, ms[..last], n, i);
    }
  }

  lemma DivUnique(x: nat, o: nat, y: nat, o': nat, b: nat)
    requires o < b && o' < b && x * b + o == y * b + o'
    ensures x == y && o == o'
  {
    if x < y { MulMono(x + 1, y, b); }
    if y < x { MulMono(y + 1, x, b); }
  }

  lemma SlotSplits(n: nat, o: nat, b: nat)
    requires o < b
    ensures (n * b + o) / b == n && (n * b + o) % b == o
  {
    var s := n * b + o;
    assert s == (s / b) * b + s % b;
    DivUnique(s / b, s % b, n, o, b);
  }

  /** A slot names one position of one sequence. */
  lemma SlotInjective(p: Pool, b: nat, x: Id, i: nat, y: Id, j: nat)
    requires b > 0 && PoolOk(p) && Exclusive(p.tables) && x in p.tables && y in p.tables
    requires i / b < |p.tables[x]| && j / b < |p.tables[y]|
    requires p.tables[x][i / b].device.GPU? && p.tables[y][j / b].device.GPU?
    requires Slot(p.tables[x], b, i) == Slot(p.tables[y], b, j)
    ensures x == y && i == j
  {
    hide PoolOk, Slot;
    var t, u := p.tables[x], p.tables[y];
    assert t[i / b] in t && u[j / b] in u;
    SlotParts(t, u, b, i, j);
    PoolParts(p, x);
    SamePosition(i, j, b);
  }

  /** Equal slots come from the same block and the same offset. */
  lemma SlotParts(t: Table, u: Table, b: nat, i: nat, j: nat)
    requires b > 0 && i / b < |t| && j / b < |u| && Slot(t, b, i) == Slot(u, b, j)
    requires t[i / b].device == u[j / b].device
    ensures t[i / b] == u[j / b] && i % b == j % b
  {
    DivUnique(t[i / b].number, i % b, u[j / b].number, j % b, b);
  }

  lemma SamePosition(i: nat, j: nat, b: nat)
    requires b > 0
    ensures i / b == j / b && i % b == j % b ==> i == j
  {
    assert i == (i / b) * b + i % b && j == (j / b) * b + j % b;
  }

  /** The position that cell `i` of a request stands for. */
  function CellPosition(m: Meta, i: nat): int {
    m.data.Cached() + i
  }

  lemma CellPlace(s: Sys, m: Meta, i: nat)
    requires Inv(s) && FromBatch(s, m) && m.Ready(s.b) && i < m.data.runningInflight
    ensures 0 <= CellPosition(m, i) && CellPosition(m, i) / s.b < |m.table|
    ensures s.data[m.id].Cached() <= CellPosition(m, i)
    ensures m.table[CellPosition(m, i) / s.b].device.GPU? && s.pool.Has(m.table[CellPosition(m, i) / s.b])
    ensures CellAt(s.b, m, i).slot == Slot(m.table, s.b, CellPosition(m, i))
    ensures CellAt(s.b, m, i).id == m.id && CellAt(s.b, m, i).position == CellPosition(m, i)
    ensures s.b > 0 && PoolOk(s.pool) && Exclusive(s.pool.tables)
    ensures m.id in s.pool.tables && m.table == s.pool.tables[m.id]
  {
    MetaReady(s, m);
    PositionInBlock(m.Start() + i, m.Start() + m.data.runningInflight, s.b);
    assert TableOk(s.pool, s.pool.tables[m.id]);
    assert m.table[CellPosition(m, i) / s.b] in m.table;
  }

  /** A live request's token that is in the GPU cache. */
  ghost predicate OnGpu(s: Sys, y: Id, p: nat)
    requires s.b > 0
  {
    && y in s.pool.tables && y in s.data && p < s.data[y].Cached()
    && p / s.b < |s.pool.tables[y]| && s.pool.tables[y][p / s.b].device.GPU?
  }

  ghost predicate InRange(cells: seq<Cell>, n: nat) {
    forall k :: 0 <= k < |cells| ==> cells[k].slot < n
  }

  ghost predicate Distinct(cells: seq<Cell>) {
    forall j, k :: 0 <= j < k < |cells| ==> cells[j].slot != cells[k].slot
  }

  /** Slot safety: in range, pairwise distinct, and none of them holds a cached token of any request,
      paused ones included. */
  lemma SlotsAreSafe(s: Sys, ms: seq<Meta>)
    requires Inv(s) && Batch(s, ms)
    ensures AllReady(s.b, ms)
    ensures InRange(AllCells(s.b, ms), |s.pool.gpu.refs| * s.b) && Distinct(AllCells(s.b, ms))
    ensures forall k, y, p: nat :: 0 <= k < |AllCells(s.b, ms)| && OnGpu(s, y, p) ==>
      Slot(s.pool.tables[y], s.b, p) != AllCells(s.b, ms)[k].slot
  {
    hide Inv, Batch, AllReady, AllCells;
    SizePositive(s);
    BatchReady(s, ms);
    var cells := AllCells(s.b, ms);
    forall k | 0 <= k < |cells| ensures cells[k].slot < |s.pool.gpu.refs| * s.b {
      SlotInRange(s, ms, k);
    }
    forall j, k | 0 <= j < k < |cells| ensures cells[j].slot != cells[k].slot {
      SlotsDiffer(s, ms, j, k);
    }
    forall k, y, p: nat | 0 <= k < |cells| && OnGpu(s, y, p) ensures Slot(s.pool.tables[y], s.b, p) != cells[k].slot {
      SlotNotCached(s, ms, k, y, p);
    }
  }

  lemma SizePositive(s: Sys)
    requires Inv(s)
    ensures s.b > 0
  {
  }

  lemma BatchMember(s: Sys, ms: seq<Meta>, n: nat)
    requires Batch(s, ms) && n < |ms|
    ensures FromBatch(s, ms[n])
  {
  }

  lemma SlotBound(n: nat, o: nat, b: nat, r: nat)
    requires n < r && o < b
    ensures n * b + o < r * b
  {
    MulMono(n + 1, r, b);
  }

  lemma SlotInRange(s: Sys, ms: seq<Meta>, k: nat)
    requires Inv(s) && Batch(s, ms) && AllReady(s.b, ms) && k < |AllCells(s.b, ms)|
    ensures AllCells(s.b, ms)[k].slot < |s.pool.gpu.refs| * s.b
  {
    hide *;
    var n, i := CellOrigin(s.b, ms, k);
    BatchMember(s, ms, n);
    CellPlace(s, ms[n], i);
    SlotUnder(s.pool, ms[n].table, s.b, CellPosition(ms[n], i));
  }

  lemma SlotUnder(p: Pool, t: Table, b: nat, position: int)
    requires b > 0 && 0 <= position && position / b < |t| && t[position / b].device.GPU? && p.Has(t[position / b])
    ensures Slot(t, b, position) < |p.gpu.refs| * b
  {
    SlotBound(t[position / b].number, position % b, b, |p.gpu.refs|);
  }

  lemma SlotsDiffer(s: Sys, ms: seq<Meta>, j: nat, k: nat)
    requires Inv(s) && Batch(s, ms) && AllReady(s.b, ms) && j < k < |AllCells(s.b, ms)|
    ensures AllCells(s.b, ms)[j].slot != AllCells(s.b, ms)[k].slot
  {
    hide Inv, FromBatch, AllCells, CellAt, Slot, PoolOk, Exclusive;
    var n, i := CellOrigin(s.b, ms, j);
    var n', i' := CellOrigin(s.b, ms, k);
    var m, m' := ms[n], ms[n'];
    BatchMember(s, ms, n);
    BatchMember(s, ms, n');
    CellPlace(s, m, i);
    CellPlace(s, m', i');
    if AllCells(s.b, ms)[j].slot == AllCells(s.b, ms)[k].slot {
      SlotInjective(s.pool, s.b, m.id, CellPosition(m, i), m'.id, CellPosition(m', i'));
    }
  }

  lemma SlotNotCached(s: Sys, ms: seq<Meta>, k: nat, y: Id, p: nat)
    requires Inv(s) && Batch(s, ms) && AllReady(s.b, ms) && k < |AllCells(s.b, ms)|
    requires OnGpu(s, y, p)
    ensures Slot(s.pool.tables[y], s.b, p) != AllCells(s.b, ms)[k].slot
  {
    hide Inv, Batch, FromBatch, AllCells, CellAt, Slot, PoolOk, Exclusive;
    var n, i := CellOrigin(s.b, ms, k);
    BatchMember(s, ms, n);
    CellPlace(s, ms[n], i);
    if Slot(s.pool.tables[y], s.b, p) == AllCells(s.b, ms)[k].slot {
      SlotInjective(s.pool, s.b, y, p, ms[n].id, CellPosition(ms[n], i));
    }
  }

  // ---- The memory after the writes

  ghost function Store(mem: Mem, b: nat, c: Cell): Mem
    requires b > 0
  {
    (x: Block) => if x == Block(GPU, c.slot / b) then mem(x)[c.slot % b := Tag(c.id, c.position)] else mem(x)
  }

  ghost function StoreAll(mem: Mem, b: nat, cells: seq<Cell>): Mem
    requires b > 0
  {
    if cells == [] then mem else Store(StoreAll(mem, b, cells[..|cells| - 1]), b, cells[|cells| - 1])
  }

  ghost predicate Hits(b: nat, slot: nat, x: Block, o: nat)
    requires b > 0
  {
    x == Block(GPU, slot / b) && o == slot % b
  }

  ghost predicate Holds(mem: Mem, x: Block, o: nat, t: Tag) {
    o in mem(x) && mem(x)[o] == t
  }

  lemma HitsOnce(b: nat, slot: nat, slot': nat, x: Block, o: nat)
    requires b > 0 && Hits(b, slot, x, o) && Hits(b, slot', x, o)
    ensures slot == slot'
  {
    assert slot == (slot / b) * b + slot % b && slot' == (slot' / b) * b + slot' % b;
  }

  lemma {:induction false} StoreElsewhere(mem: Mem, b: nat, cells: seq<Cell>, x: Block, o: nat, t: Tag)
    requires b > 0 && Holds(mem, x, o, t) && forall k :: 0 <= k < |cells| ==> !Hits(b, cells[k].slot, x, o)
    ensures Holds(StoreAll(mem, b, cells), x, o, t)
  {
    if cells != [] {
      StoreElsewhere(mem, b, cells[..|cells| - 1], x, o, t);
      assert !Hits(b, cells[|cells| - 1].slot, x, o);
    }
  }

  lemma {:induction false} StoreReads(mem: Mem, b: nat, cells: seq<Cell>, k: nat, x: Block, o: nat)
    requires b > 0 && k < |cells| && Distinct(cells) && Hits(b, cells[k].slot, x, o)
    ensures Holds(StoreAll(mem, b, cells), x, o, Tag(cells[k].id, cells[k].position))
  {
    var last := |cells| - 1;
    if k < last {
      StoreReads(mem, b, cells[..last], k, x, o);
      if Hits(b, cells[last].slot, x, o) {
        HitsOnce(b, cells[k].slot, cells[last].slot, x, o);
      }
    }
  }

  /** How many tokens of a request are in the cache once the batch is forwarded. */
  ghost function Reached(s: Sys, id: Id): int
    requires id in s.data
  {
    s.data[id].Cached() + if InBatch(s.place, id) then s.data[id].runningInflight else 0
  }

  ghost predicate RowsReach(s: Sys, mem: Mem) {
    forall id {:trigger RowHolds(s.pool.tables[id], id, s.b, Reached(s, id), mem)} ::
      id in s.pool.tables && id in s.data ==> RowHolds(s.pool.tables[id], id, s.b, Reached(s, id), mem)
  }

  /** Every request with tokens to forward is among those that the worker forwards. */
  ghost predicate Covers(s: Sys, ms: seq<Meta>) {
    forall id :: id in s.data && InBatch(s.place, id) && s.data[id].runningInflight > 0 ==>
      exists n :: 0 <= n < |ms| && ms[n].id == id
  }

  /** End of the forward pass: what was cached still is, and so is what was forwarded. */
  lemma WritesRefine(s: Sys, l: Log, ms: seq<Meta>)
    requires Sound(s, l) && Batch(s, ms) && AllReady(s.b, ms) && Covers(s, ms)
    ensures RowsReach(s, StoreAll(l.now, s.b, AllCells(s.b, ms)))
  {
    hide Sound, Batch, Covers, AllCells, StoreAll, Reached, AllReady;
    SizeKnown(s, l);
    var mem := StoreAll(l.now, s.b, AllCells(s.b, ms));
    forall id, k: nat, o: nat ensures Reads(s, mem, id, k, o) {
      if id in s.pool.tables && id in s.data && k < |s.pool.tables[id]| && o < s.b && k * s.b + o < Reached(s, id) {
        WriteAt(s, l, ms, id, k, o);
      }
    }
    RowsFromCells(s, mem);
  }

  lemma SizeKnown(s: Sys, l: Log)
    requires Sound(s, l)
    ensures s.b > 0 && s.pool.tables.Keys <= s.data.Keys && s.data.Keys == s.place.Keys
  {
  }

  /** Cell `o` of the request's block `k` holds the token that belongs there, if one does. */
  ghost predicate Reads(s: Sys, mem: Mem, id: Id, k: nat, o: nat) {
    id in s.pool.tables && id in s.data && k < |s.pool.tables[id]| && o < s.b && k * s.b + o < Reached(s, id) ==>
      Holds(mem, s.pool.tables[id][k], o, Tag(id, k * s.b + o))
  }

  lemma RowsFromCells(s: Sys, mem: Mem)
    requires forall id, k: nat, o: nat :: Reads(s, mem, id, k, o)
    ensures RowsReach(s, mem)
  {
    hide Reached;
    forall id | id in s.pool.tables && id in s.data ensures RowHolds(s.pool.tables[id], id, s.b, Reached(s, id), mem) {
      forall k | 0 <= k < |s.pool.tables[id]|
        ensures BlockHolds(mem(s.pool.tables[id][k]), id, k, s.b, Reached(s, id))
      {
        forall o | 0 <= o < s.b && k * s.b + o < Reached(s, id)
          ensures o in mem(s.pool.tables[id][k]) && mem(s.pool.tables[id][k])[o] == Tag(id, k * s.b + o)
        {
          assert Reads(s, mem, id, k, o);
        }
      }
    }
  }

  lemma WriteAt(s: Sys, l: Log, ms: seq<Meta>, id: Id, k: nat, o: nat)
    requires Sound(s, l) && Batch(s, ms) && AllReady(s.b, ms) && Covers(s, ms)
    requires id in s.pool.tables && id in s.data && k < |s.pool.tables[id]| && o < s.b && k * s.b + o < Reached(s, id)
    ensures Holds(StoreAll(l.now, s.b, AllCells(s.b, ms)), s.pool.tables[id][k], o, Tag(id, k * s.b + o))
  {
    hide Sound, Batch, AllCells, StoreAll, AllReady, Holds;
    if k * s.b + o < s.data[id].Cached() {
      CachedStays(s, l, ms, id, k, o);
    } else {
      var n :| 0 <= n < |ms| && ms[n].id == id;
      BatchMember(s, ms, n);
      SoundInv(s, l);
      WrittenCell(s, l.now, ms, n, k, o);
    }
  }

  lemma RowCell(s: Sys, l: Log, id: Id, k: nat, o: nat)
    requires Sound(s, l)
    requires id in s.pool.tables && id in s.data && k < |s.pool.tables[id]|
    requires o < s.b && k * s.b + o < s.data[id].Cached()
    ensures Holds(l.now, s.pool.tables[id][k], o, Tag(id, k * s.b + o)) && Inv(s)
  {
    assert RowHolds(s.pool.tables[id], id, s.b, s.data[id].Cached(), l.now);
    assert BlockHolds(l.now(s.pool.tables[id][k]), id, k, s.b, s.data[id].Cached());
  }

  lemma CachedStays(s: Sys, l: Log, ms: seq<Meta>, id: Id, k: nat, o: nat)
    requires Sound(s, l) && Batch(s, ms) && AllReady(s.b, ms)
    requires id in s.pool.tables && id in s.data && k < |s.pool.tables[id]|
    requires o < s.b && k * s.b + o < s.data[id].Cached()
    ensures Holds(StoreAll(l.now, s.b, AllCells(s.b, ms)), s.pool.tables[id][k], o, Tag(id, k * s.b + o))
  {
    hide Sound, Inv, Batch, AllCells, StoreAll, AllReady, Holds;
    var x, cells := s.pool.tables[id][k], AllCells(s.b, ms);
    RowCell(s, l, id, k, o);
    SlotSplits(k, o, s.b);
    forall j | 0 <= j < |cells| ensures !Hits(s.b, cells[j].slot, x, o) {
      if x.device.GPU? {
        SlotNotCached(s, ms, j, id, k * s.b + o);
        SlotSplits(x.number, o, s.b);
        if Hits(s.b, cells[j].slot, x, o) {
          HitsOnce(s.b, cells[j].slot, x.number * s.b + o, x, o);
        }
      }
    }
    StoreElsewhere(l.now, s.b, cells, x, o, Tag(id, k * s.b + o));
  }

  lemma WrittenCell(s: Sys, mem: Mem, ms: seq<Meta>, n: nat, k: nat, o: nat)
    requires Inv(s) && Batch(s, ms) && AllReady(s.b, ms) && n < |ms|
    requires FromBatch(s, ms[n]) && k < |ms[n].table| && o < s.b
    requires ms[n].data.Cached() <= k * s.b + o < ms[n].data.Cached() + ms[n].data.runningInflight
    ensures Holds(StoreAll(mem, s.b, AllCells(s.b, ms)), ms[n].table[k], o, Tag(ms[n].id, k * s.b + o))
  {
    hide Batch, AllCells, StoreAll, Holds, FromBatch, PoolOk, Exclusive, AllGood, Queues, CellAt;
    var m := ms[n];
    assert m.Ready(s.b);
    var i := k * s.b + o - m.data.Cached();
    CellPlace(s, m, i);
    SlotSplits(k, o, s.b);
    var j := CellExists(s.b, ms, n, i);
    hide Inv;
    SlotsAreSafe(s, ms);
    SlotSplits(m.table[k].number, o, s.b);
    StoreReads(mem, s.b, AllCells(s.b, ms), j, m.table[k], o);
  }
}
