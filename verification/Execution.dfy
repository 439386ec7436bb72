/** Executing one iteration: the deferred block copies, the batch that the worker gets, and the pairing
    of sampled tokens with requests. */
module Execution {
  import opened Basics
  import opened Blocks
  import opened Sequences
  import opened Layouts
  import opened BlockManager
  import opened System
  import opened Memory
  import opened Steps
  import opened Rounds
  import opened Phases
  import opened Iterations
  import opened Sorting
  import opened Worker
  import opened CacheWrites
  import opened Outputs

  // ---- Deferred copies

  ghost function Largest(s: set<nat>): (k: nat)
    requires s != {}
    ensures k in s && forall h :: h in s ==> h <= k
  {
    var x :| x in s;
    if s == {x} then x
    else
      var y := Largest(s - {x});
      assert forall h :: h in s ==> h == x || h in s - {x};
      if x < y then y else x
  }

  /** The source whose copy to `v` is made last. */
  ghost function SourceOf(m: map<nat, nat>, v: nat): (k: nat)
    requires v in m.Values
    ensures Wins(m, k) && m[k] == v
  {
    var all := set k | k in m && m[k] == v;
    var k :| k in m && m[k] == v;
    assert k in all;
    var w := Largest(all);
    assert forall h :: h in m && m[h] == m[w] ==> h in all;
    w
  }

  /** All copies to the CPU, in ascending order of their sources. */
  ghost function CopyOut(mem: Mem, outs: map<nat, nat>): Mem {
    (x: Block) =>
      if x.device.CPU? && x.number in outs.Values then mem(Block(GPU, SourceOf(outs, x.number))) else mem(x)
  }

  ghost function CopyIn(mem: Mem, ins: map<nat, nat>): Mem {
    (x: Block) =>
      if x.device.GPU? && x.number in ins.Values then mem(Block(CPU, SourceOf(ins, x.number))) else mem(x)
  }

  ghost predicate SameMem(m: Mem, m': Mem) {
    forall x: Block :: m(x) == m'(x)
  }

  /** Running an iteration's copies late, all copies out before all copies in, leaves the memory that
      the scheduler had in mind when it decided on each of them. */
  lemma DeferredCopies(l: Log, cache: Mem)
    requires Replays(l) && SameMem(cache, l.start)
    ensures SameMem(CopyIn(CopyOut(cache, l.outs), l.ins), l.now)
  {
    var mid := CopyOut(cache, l.outs);
    forall c: nat ensures mid(Block(CPU, c)) == l.now(Block(CPU, c)) {
      if c in l.outs.Values {
        assert l.now(Block(CPU, l.outs[SourceOf(l.outs, c)])) == l.start(Block(GPU, SourceOf(l.outs, c)));
      } else {
        assert Block(CPU, c).number !in l.outs.Values;
      }
    }
    forall x: Block ensures CopyIn(mid, l.ins)(x) == l.now(x) {
      if x.device.CPU? {
        assert x == Block(CPU, x.number);
      } else if x.number in l.ins.Values {
        assert l.now(Block(GPU, l.ins[SourceOf(l.ins, x.number)])) == l.now(Block(CPU, SourceOf(l.ins, x.number)));
        assert x == Block(GPU, x.number);
      }
    }
  }

  lemma {:induction false} StoreSame(m: Mem, m': Mem, b: nat, cells: seq<Cell>)
    requires b > 0 && SameMem(m, m')
    ensures SameMem(StoreAll(m, b, cells), StoreAll(m', b, cells))
  {
    if cells != [] {
      var n := |cells| - 1;
      StoreSame(m, m', b, cells[..n]);
      forall x: Block ensures StoreAll(m, b, cells)(x) == StoreAll(m', b, cells)(x) {
        assert StoreAll(m, b, cells[..n])(x) == StoreAll(m', b, cells[..n])(x);
      }
    }
  }

  lemma RefinesInCache(b: nat, tables: map<Id, Table>, data: map<Id, SeqRec>, m: Mem, m': Mem)
    requires tables.Keys <= data.Keys && Refines(b, tables, data, m) && SameMem(m, m')
    ensures Refines(b, tables, data, m')
  {
    forall id | id in tables ensures RowHolds(tables[id], id, b, data[id].Cached(), m') {
      assert RowHolds(tables[id], id, b, data[id].Cached(), m);
      forall k | 0 <= k < |tables[id]| ensures BlockHolds(m'(tables[id][k]), id, k, b, data[id].Cached()) {
        assert BlockHolds(m(tables[id][k]), id, k, b, data[id].Cached());
      }
    }
  }

  /** The memory that the pending copies leave. */
  ghost function Landed(l: Log): Mem {
    CopyIn(CopyOut(l.start, l.outs), l.ins)
  }

  ghost predicate Outgoing(s: Sys, l: Log, v: Id, u: Table, m: map<nat, nat>) {
    && Sound(s, l) && !l.clash && v in s.pool.tables && v in s.data && !InBatch(s.place, v)
    && Layout(s.b, s.data[v].Cleared(), s.pool.tables[v])
    && Moved(s.pool.tables, s.pool.tables[v], u, GPU, m) && |u| == |s.pool.tables[v]|
  }

  /** Exactly when one more swap-out leaves the real cache right: no older copy to one of its targets is
      made later, and none of its targets is yet to be swapped in from. */
  lemma SwapOutLands(s: Sys, l: Log, v: Id, u: Table, m: map<nat, nat>)
    requires Outgoing(s, l, v, u, m)
    ensures s.pool.tables[v := u].Keys <= s.data.Keys
    ensures Refines(s.b, s.pool.tables[v := u], s.data, Landed(LoggedOut(l, s.pool.tables[v], u, m))) <==>
      !Clashes(l, m)
  {
    hide *;
    OutgoingKeys(s, l, v, u, m);
    if !Clashes(l, m) {
      OutgoingRefines(s, l, v, u, m);
    } else {
      ClashKind(l, m);
      if g :| g in m && Beaten(l.outs, g, m[g]) {
        BeatenLost(s, l, v, u, m, g);
      } else {
        var g :| g in m && m[g] in l.ins;
        SpoiledLost(s, l, v, u, m, g);
      }
    }
  }

  lemma OutgoingKeys(s: Sys, l: Log, v: Id, u: Table, m: map<nat, nat>)
    requires Outgoing(s, l, v, u, m)
    ensures s.pool.tables[v := u].Keys <= s.data.Keys && s.b > 0 && v in s.pool.tables
  {
  }

  lemma ClashKind(l: Log, m: map<nat, nat>)
    requires Clashes(l, m)
    ensures exists g :: g in m && (Beaten(l.outs, g, m[g]) || m[g] in l.ins)
  {
  }

  lemma OutgoingRefines(s: Sys, l: Log, v: Id, u: Table, m: map<nat, nat>)
    requires Outgoing(s, l, v, u, m) && !Clashes(l, m)
    ensures s.b > 0 && s.pool.tables[v := u].Keys <= s.data.Keys
    ensures Refines(s.b, s.pool.tables[v := u], s.data, Landed(LoggedOut(l, s.pool.tables[v], u, m)))
  {
    hide Refines, PoolOk, Exclusive, AllGood, Queues, Replays, Apart, Unread, Moved, Clashes, MoveCells, CopyIn;
    hide CopyOut;
    var t, l' := s.pool.tables[v], LoggedOut(l, s.pool.tables[v], u, m);
    EnoughCells(s, v);
    RowNoDup(s.pool.tables, v) by { assert PoolOk(s.pool); PoolParts(s.pool, v); }
    MoveRefines(s.b, s.pool.tables, s.data, l.now, v, u, GPU, m);
    JournalOut(l, s.pool.tables, s.place, v, u, m);
    DeferredCopies(l', l'.start);
    RefinesInCache(s.b, s.pool.tables[v := u], s.data, l'.now, Landed(l'));
  }

  lemma EnoughCells(s: Sys, v: Id)
    requires s.b > 0 && v in s.pool.tables && v in s.data && Layout(s.b, s.data[v].Cleared(), s.pool.tables[v])
    ensures 0 <= s.data[v].Cached() <= |s.pool.tables[v]| * s.b
    ensures forall k: nat :: k < |s.pool.tables[v]| ==> k * s.b < s.data[v].Cached()
  {
    CeilDivBounds(s.data[v].Cached(), s.b);
    forall k: nat | k < |s.pool.tables[v]| ensures k * s.b < s.data[v].Cached() {
      MulMono(k + 1, |s.pool.tables[v]|, s.b);
    }
  }

  /** The first cell of every block that is copied out is the victim's own. */
  lemma SourceCell(s: Sys, l: Log, v: Id, u: Table, m: map<nat, nat>, g: nat) returns (k: nat)
    requires Outgoing(s, l, v, u, m) && g in m
    ensures s.b > 0 && g !in l.outs && k < |u| && u[k] == Block(CPU, m[g]) && k * s.b < s.data[v].Cached()
    ensures s.pool.tables[v][k] == Block(GPU, g)
    ensures 0 in l.start(Block(GPU, g)) && l.start(Block(GPU, g))[0] == Tag(v, k * s.b)
  {
    hide Exclusive, PoolOk, AllGood, Queues, Unread, MoveCells;
    k := MovedBack(s.pool.tables, s.pool.tables[v], u, GPU, m, g);
    EnoughCells(s, v);
    NewSources(l, s.pool.tables, s.place, v, u, m);
    assert RowHolds(s.pool.tables[v], v, s.b, s.data[v].Cached(), l.now);
    assert BlockHolds(l.now(s.pool.tables[v][k]), v, k, s.b, s.data[v].Cached());
    assert k * s.b + 0 < s.data[v].Cached();
  }

  /** What a reader at the start of block `k` of `id` must find. */
  lemma FirstCell(b: nat, tables: map<Id, Table>, data: map<Id, SeqRec>, mem: Mem, id: Id, k: nat)
    requires b > 0 && tables.Keys <= data.Keys && Refines(b, tables, data, mem)
    requires id in tables && k < |tables[id]| && k * b < data[id].Cached()
    ensures 0 in mem(tables[id][k]) && mem(tables[id][k])[0] == Tag(id, k * b)
  {
    assert RowHolds(tables[id], id, b, data[id].Cached(), mem);
    assert BlockHolds(mem(tables[id][k]), id, k, b, data[id].Cached());
    assert k * b + 0 < data[id].Cached();
  }

  /** The targets of one swap-out differ. */
  lemma OneTarget(s: Sys, l: Log, v: Id, u: Table, m: map<nat, nat>, g: nat, h: nat)
    requires Outgoing(s, l, v, u, m) && g in m && h in m && m[g] == m[h]
    ensures g == h
  {
    var j := MovedBack(s.pool.tables, s.pool.tables[v], u, GPU, m, g);
    var k := MovedBack(s.pool.tables, s.pool.tables[v], u, GPU, m, h);
    assert NoDup(u);
  }

  lemma BeatenLost(s: Sys, l: Log, v: Id, u: Table, m: map<nat, nat>, g: nat)
    requires Outgoing(s, l, v, u, m) && g in m && Beaten(l.outs, g, m[g])
    ensures s.b > 0 && s.pool.tables[v := u].Keys <= s.data.Keys
    ensures !Refines(s.b, s.pool.tables[v := u], s.data, Landed(LoggedOut(l, s.pool.tables[v], u, m)))
  {
    hide Outgoing, Refines, MoveCells, Carries;
    OutgoingKeys(s, l, v, u, m);
    var l', c := LoggedOut(l, s.pool.tables[v], u, m), m[g];
    var k := SourceCell(s, l, v, u, m, g);
    var h :| h in l.outs && l.outs[h] == c && g < h;
    assert l'.outs[g] == c;
    var w := SourceOf(l'.outs, c);
    assert w >= h by { OnlyOneSource(s, l, v, u, m, g, h); assert h in l'.outs && l'.outs[h] == c; }
    assert w !in m by { if w in m { OneTarget(s, l, v, u, m, g, w); } }
    OthersHere(s, l, v, u, m, g, w);
    assert Landed(l')(Block(CPU, c)) == l.start(Block(GPU, w));
    if Refines(s.b, s.pool.tables[v := u], s.data, Landed(l')) {
      FirstCell(s.b, s.pool.tables[v := u], s.data, Landed(l'), v, k);
    }
  }

  lemma OnlyOneSource(s: Sys, l: Log, v: Id, u: Table, m: map<nat, nat>, g: nat, h: nat)
    requires Outgoing(s, l, v, u, m) && g in m && h in l.outs
    ensures h !in m
  {
    NewSources(l, s.pool.tables, s.place, v, u, m);
  }

  lemma SpoiledLost(s: Sys, l: Log, v: Id, u: Table, m: map<nat, nat>, g: nat)
    requires Outgoing(s, l, v, u, m) && g in m && m[g] in l.ins
    requires forall h :: h in m ==> !Beaten(l.outs, h, m[h])
    ensures s.b > 0 && s.pool.tables[v := u].Keys <= s.data.Keys
    ensures !Refines(s.b, s.pool.tables[v := u], s.data, Landed(LoggedOut(l, s.pool.tables[v], u, m)))
  {
    hide Outgoing, Refines, MoveCells;
    OutgoingKeys(s, l, v, u, m);
    var l', c, tables := LoggedOut(l, s.pool.tables[v], u, m), m[g], s.pool.tables[v := u];
    var k := SourceCell(s, l, v, u, m, g);
    assert l'.outs[g] == c;
    var w := SourceOf(l'.outs, c);
    assert w == g by {
      assert !Beaten(l.outs, g, m[g]);
      if w in m { OneTarget(s, l, v, u, m, g, w); }
    }
    var z, j := OthersRead(s, l, v, u, m, c);
    var i := l.ins[c];
    assert l.ins[c] in l.ins.Values;
    assert SourceOf(l.ins, i) == c by { OneReader(s, l, v, u, m, c); }
    assert Landed(l')(Block(GPU, i)) == l.start(Block(GPU, g));
    assert tables[z][j] == Block(GPU, i);
    if Refines(s.b, tables, s.data, Landed(l')) {
      FirstCell(s.b, tables, s.data, Landed(l'), z, j);
    }
  }

  /** An older copy to a block that is free again does not carry the victim's tokens. */
  lemma OthersHere(s: Sys, l: Log, v: Id, u: Table, m: map<nat, nat>, g: nat, w: nat)
    requires Outgoing(s, l, v, u, m) && g in m && w in l.outs && l.outs[w] == m[g]
    ensures 0 !in l.start(Block(GPU, w)) || l.start(Block(GPU, w))[0].id != v
  {
    hide PoolOk, Exclusive, AllGood, Queues, Refines, Journal, ReadAt;
    var k := MovedBack(s.pool.tables, s.pool.tables[v], u, GPU, m, g);
    assert HomedAt(s, l, w);
  }

  /** A pending swap-in fills a cached block of another request, one of the batch. */
  lemma OthersRead(s: Sys, l: Log, v: Id, u: Table, m: map<nat, nat>, c: nat) returns (z: Id, k: nat)
    requires Outgoing(s, l, v, u, m) && c in l.ins
    ensures z != v && Carries(s, l, c, z, k)
  {
    hide PoolOk, Exclusive, AllGood, Queues, Refines, Journal, HomedAt, Carries;
    assert ReadAt(s, l, c);
    z, k :| InBatch(s.place, z) && Carries(s, l, c, z, k);
  }

  lemma OneReader(s: Sys, l: Log, v: Id, u: Table, m: map<nat, nat>, c: nat)
    requires Outgoing(s, l, v, u, m) && c in l.ins
    ensures forall d :: d in l.ins && l.ins[d] == l.ins[c] ==> d == c
  {
  }

  // ---- Pairing samples with requests

  function MetasOf(plan: Plan, data: map<Id, SeqRec>, tables: map<Id, Table>): seq<Meta>
    requires |plan.isPrompt| == |plan.scheduled|
    requires forall x :: x in plan.scheduled ==> x in data && x in tables
  {
    seq(|plan.scheduled|, i requires 0 <= i < |plan.scheduled| =>
      Meta(plan.scheduled[i], plan.isPrompt[i], data[plan.scheduled[i]], tables[plan.scheduled[i]]))
  }

  ghost predicate PromptsLead(metas: seq<Meta>) {
    forall i, j :: 0 <= i < j < |metas| && metas[j].isPrompt ==> metas[i].isPrompt
  }

  function ActiveIds(metas: seq<Meta>): seq<Id> {
    if metas == [] then []
    else
      var m := metas[|metas| - 1];
      ActiveIds(metas[..|metas| - 1]) + if m.OnlySwap() then [] else [m.id]
  }

  lemma IdsOfConcat(a: seq<Meta>, b: seq<Meta>)
    ensures IdsOf(a + b) == IdsOf(a) + IdsOf(b)
  {
  }

  /** The worker's two passes keep the order of a list that has its prompts first. */
  lemma {:induction false} TwoPasses(metas: seq<Meta>)
    requires PromptsLead(metas)
    ensures IdsOf(Pass(metas, true)) + IdsOf(Pass(metas, false)) == ActiveIds(metas)
  {
    if metas != [] {
      var n := |metas| - 1;
      var m, before := metas[n], metas[..n];
      TwoPasses(before);
      var last := if m.OnlySwap() then [] else [m];
      if m.isPrompt {
        OnlyPrompts(before);
        IdsOfConcat(Pass(before, true), last);
        assert Pass(metas, false) == [];
      } else {
        IdsOfConcat(Pass(before, false), last);
        assert Pass(metas, true) == Pass(before, true);
      }
      assert IdsOf(last) == if m.OnlySwap() then [] else [m.id];
    }
  }

  lemma {:induction false} OnlyPrompts(metas: seq<Meta>)
    requires forall m :: m in metas ==> m.isPrompt
    ensures Pass(metas, false) == []
  {
    if metas != [] {
      OnlyPrompts(metas[..|metas| - 1]);
    }
  }

  lemma {:induction false} SelectAppend(s: seq<Id>, x: Id, chosen: Id -> bool)
    ensures Select(s + [x], chosen) == Select(s, chosen) + if chosen(x) then [x] else []
  {
    if s != [] {
      SelectAppend(s[1..], x, chosen);
      assert (s + [x])[1..] == s[1..] + [x];
    }
  }

  ghost predicate MatchData(metas: seq<Meta>, data: map<Id, SeqRec>) {
    forall m :: m in metas ==>
      m.id in data && m.data == data[m.id] && 0 <= m.data.runningInflight && m.data.resumeDiscard == 0
  }

  lemma {:induction false} ActiveSelected(metas: seq<Meta>, data: map<Id, SeqRec>)
    requires MatchData(metas, data)
    ensures ActiveIds(metas) == Select(IdsOf(metas), HasOutput(data))
  {
    if metas != [] {
      hide Select, MatchData, IdsOf;
      var n := |metas| - 1;
      var m := metas[n];
      MatchPrefix(metas, data);
      ActiveSelected(metas[..n], data);
      SelectAppend(IdsOf(metas[..n]), m.id, HasOutput(data));
      IdsOfLast(metas);
    } else {
      assert IdsOf(metas) == [];
    }
  }

  lemma IdsOfLast(metas: seq<Meta>)
    requires metas != []
    ensures IdsOf(metas) == IdsOf(metas[..|metas| - 1]) + [metas[|metas| - 1].id]
  {
  }

  lemma MatchPrefix(metas: seq<Meta>, data: map<Id, SeqRec>)
    requires MatchData(metas, data) && metas != []
    ensures MatchData(metas[..|metas| - 1], data)
    ensures metas[|metas| - 1].OnlySwap() <==> !HasOutput(data)(metas[|metas| - 1].id)
  {
    assert metas[|metas| - 1] in metas;
  }

  /** The sampler sees the requests in the order in which the engine pairs them with its answers. */
  lemma SamplesPair(s: Sys, l: Log, plan: Plan)
    requires Sound(s, l) && Between(s, [], plan.scheduled) && WellMarked(s.data, plan)
    requires forall x :: x in plan.scheduled ==> x in s.data && x in s.pool.tables
    ensures var metas := MetasOf(plan, s.data, s.pool.tables);
      IdsOf(Pass(metas, true)) + IdsOf(Pass(metas, false)) == WithOutput(s.data, plan.scheduled)
  {
    hide *;
    MarkedSize(s.data, plan);
    var metas := MetasOf(plan, s.data, s.pool.tables);
    MetasMatch(s, l, plan);
    MetasMarked(s.data, s.pool.tables, plan);
    TwoPasses(metas);
    ActiveSelected(metas, s.data);
    SelectedIsOutput(s.data, plan.scheduled);
  }

  lemma MetasMatch(s: Sys, l: Log, plan: Plan)
    requires Sound(s, l) && Between(s, [], plan.scheduled) && |plan.isPrompt| == |plan.scheduled|
    requires forall x :: x in plan.scheduled ==> x in s.data && x in s.pool.tables
    ensures MatchData(MetasOf(plan, s.data, s.pool.tables), s.data)
  {
    hide PoolOk, Exclusive, Refines, Journal, Queues, Layout, PendingLayout;
    var metas := MetasOf(plan, s.data, s.pool.tables);
    forall m | m in metas
      ensures m.id in s.data && m.data == s.data[m.id] && 0 <= m.data.runningInflight && m.data.resumeDiscard == 0
    {
      var i :| 0 <= i < |metas| && metas[i] == m;
      assert plan.scheduled[i] in plan.scheduled;
      WorkInBatch(s, l, plan.scheduled, m.id);
    }
  }

  lemma WorkInBatch(s: Sys, l: Log, batch: seq<Id>, x: Id)
    requires Sound(s, l) && Between(s, [], batch) && x in batch
    ensures x in s.data && 0 <= s.data[x].runningInflight && s.data[x].resumeDiscard == 0
  {
    assert GoodAt(s, x);
  }

  lemma MetasMarked(data: map<Id, SeqRec>, tables: map<Id, Table>, plan: Plan)
    requires WellMarked(data, plan) && |plan.isPrompt| == |plan.scheduled|
    requires forall x :: x in plan.scheduled ==> x in data && x in tables
    ensures PromptsLead(MetasOf(plan, data, tables)) && IdsOf(MetasOf(plan, data, tables)) == plan.scheduled
  {
  }

  lemma SelectedIsOutput(data: map<Id, SeqRec>, ids: seq<Id>)
    ensures WithOutput(data, ids) == Select(ids, HasOutput(data))
  {
  }

  // ---- The batch that the worker gets

  lemma BatchTables(s: Sys, l: Log, batch: seq<Id>)
    requires Sound(s, l) && Between(s, [], batch)
    ensures forall x :: x in batch ==> x in s.data && x in s.place && s.place[x].AtBatch? && x in s.pool.tables
    ensures NoDup(batch)
  {
    forall x | x in batch ensures x in s.data && x in s.place && s.place[x].AtBatch? && x in s.pool.tables {
      assert GoodAt(s, x);
    }
  }

  function Order(metas: seq<Meta>): seq<Meta> {
    Pass(metas, true) + Pass(metas, false)
  }

  lemma {:induction false} CellsConcat(b: nat, p: seq<Meta>, q: seq<Meta>)
    requires AllReady(b, p) && AllReady(b, q)
    ensures AllReady(b, p + q) && AllCells(b, p + q) == AllCells(b, p) + AllCells(b, q)
  {
    hide CellsOf;
    if q == [] {
      assert p + q == p;
    } else {
      var n := |q| - 1;
      assert q == q[..n] + [q[n]];
      assert AllReady(b, q[..n]);
      CellsConcat(b, p, q[..n]);
      assert AllReady(b, p + q);
      assert (p + q)[..|p + q| - 1] == p + q[..n];
      assert (p + q)[|p + q| - 1] == q[n];
    }
  }

  ghost predicate DistinctIds(metas: seq<Meta>) {
    forall i, j :: 0 <= i < j < |metas| ==> metas[i].id != metas[j].id
  }

  lemma {:induction false} PassDistinct(metas: seq<Meta>, prompts: bool)
    requires DistinctIds(metas)
    ensures DistinctIds(Pass(metas, prompts))
  {
    if metas != [] {
      var n := |metas| - 1;
      PassDistinct(metas[..n], prompts);
      PassMembers(metas[..n], prompts);
      forall m | m in Pass(metas[..n], prompts) ensures m.id != metas[n].id {
        var i :| 0 <= i < n && metas[i] == m;
      }
      var p := Pass(metas[..n], prompts);
      assert forall i :: 0 <= i < |p| ==> p[i] in p;
    }
  }

  lemma OrderDistinct(metas: seq<Meta>)
    requires DistinctIds(metas)
    ensures DistinctIds(Order(metas))
    ensures forall m :: m in Order(metas) <==> m in metas && !m.OnlySwap()
  {
    var p, q := Pass(metas, true), Pass(metas, false);
    PassDistinct(metas, true);
    PassDistinct(metas, false);
    PassMembers(metas, true);
    PassMembers(metas, false);
    forall m, m' | m in p && m' in q ensures m.id != m'.id {
      var i :| 0 <= i < |metas| && metas[i] == m;
      var j :| 0 <= j < |metas| && metas[j] == m';
      assert i != j;
    }
    assert forall i :: 0 <= i < |p| ==> p[i] in p;
    assert forall i :: 0 <= i < |q| ==> q[i] in q;
  }

  lemma MetasBatch(s: Sys, l: Log, plan: Plan)
    requires Sound(s, l) && Between(s, [], plan.scheduled) && WellMarked(s.data, plan)
    requires forall x :: x in plan.scheduled ==> x in s.data && x in s.pool.tables
    ensures Batch(s, Order(MetasOf(plan, s.data, s.pool.tables)))
    ensures Covers(s, Order(MetasOf(plan, s.data, s.pool.tables)))
  {
    hide PoolOk, Exclusive, Refines, Journal, Queues, Layout, PendingLayout, GoodAt, Covers;
    MarkedSize(s.data, plan);
    var metas := MetasOf(plan, s.data, s.pool.tables);
    var ms := Order(metas);
    BatchTables(s, l, plan.scheduled);
    OrderDistinct(metas);
    forall m | m in ms ensures FromBatch(s, m) {
      var i :| 0 <= i < |metas| && metas[i] == m;
      assert plan.scheduled[i] in plan.scheduled;
    }
    MetasCover(s, l, plan);
  }

  lemma MetasCover(s: Sys, l: Log, plan: Plan)
    requires Sound(s, l) && Between(s, [], plan.scheduled) && |plan.isPrompt| == |plan.scheduled|
    requires forall x :: x in plan.scheduled ==> x in s.data && x in s.pool.tables
    requires DistinctIds(MetasOf(plan, s.data, s.pool.tables))
    ensures Covers(s, Order(MetasOf(plan, s.data, s.pool.tables)))
  {
    hide PoolOk, Exclusive, Refines, Journal, Queues, Layout, PendingLayout, GoodAt, AllGood;
    var metas := MetasOf(plan, s.data, s.pool.tables);
    var ms := Order(metas);
    OrderDistinct(metas);
    forall id | id in s.data && InBatch(s.place, id) && s.data[id].runningInflight > 0
      ensures exists n :: 0 <= n < |ms| && ms[n].id == id
    {
      var i :| 0 <= i < |plan.scheduled| && plan.scheduled[i] == id;
      assert metas[i] in metas;
      WorkInBatch(s, l, plan.scheduled, id);
      assert metas[i] in ms;
      var n :| 0 <= n < |ms| && ms[n] == metas[i];
    }
  }

  /** The cells that the worker's two passes write, and what the memory is like once they are written. */
  lemma ForwardReaches(s: Sys, l: Log, plan: Plan)
    requires Sound(s, l) && Between(s, [], plan.scheduled) && WellMarked(s.data, plan)
    requires forall x :: x in plan.scheduled ==> x in s.data && x in s.pool.tables
    ensures var metas := MetasOf(plan, s.data, s.pool.tables);
      && s.b > 0 && AllReady(s.b, Pass(metas, true)) && AllReady(s.b, Pass(metas, false))
      && RowsReach(s, StoreAll(l.now, s.b, AllCells(s.b, Pass(metas, true)) + AllCells(s.b, Pass(metas, false))))
  {
    hide *;
    MarkedSize(s.data, plan);
    var metas := MetasOf(plan, s.data, s.pool.tables);
    MetasBatch(s, l, plan);
    SoundInv(s, l);
    BatchReady(s, Order(metas));
    OrderParts(s.b, metas);
    CellsConcat(s.b, Pass(metas, true), Pass(metas, false));
    WritesRefine(s, l, Order(metas));
  }

  lemma OrderParts(b: nat, metas: seq<Meta>)
    requires AllReady(b, Order(metas))
    ensures Order(metas) == Pass(metas, true) + Pass(metas, false)
    ensures AllReady(b, Pass(metas, true)) && AllReady(b, Pass(metas, false))
  {
    assert forall m :: m in Pass(metas, true) || m in Pass(metas, false) ==> m in Order(metas);
  }

  lemma JournalReplays(s: Sys, l: Log)
    requires Sound(s, l)
    ensures l.clash || Replays(l)
  {
  }

  lemma JournalMeets(s: Sys, l: Log)
    requires Sound(s, l)
    ensures l.clash ==> Meets(l.outs, l.ins)
    ensures l.outs == map[] && l.ins == map[] ==> !l.clash
  {
  }

  lemma GrowTrans(a: map<Id, SeqRec>, b: map<Id, SeqRec>, c: map<Id, SeqRec>)
    requires AllGrow(a, b) && AllGrow(b, c)
    ensures AllGrow(a, c)
  {
  }

  lemma MarkedSize(data: map<Id, SeqRec>, plan: Plan)
    requires WellMarked(data, plan)
    ensures |plan.isPrompt| == |plan.scheduled|
  {
  }

  lemma PreparedGroups(b: nat, metas: seq<Meta>, r: Inputs)
    requires AllReady(b, Pass(metas, true)) && AllReady(b, Pass(metas, false)) && Prepared(b, metas, r)
    ensures r.groups == IdsOf(Pass(metas, true)) + IdsOf(Pass(metas, false))
  {
  }

  lemma NothingToAnswer(data: map<Id, SeqRec>)
    ensures WithOutput(data, []) == []
  {
  }

  lemma GrowSelf(data: map<Id, SeqRec>)
    ensures AllGrow(data, data)
  {
  }

  lemma ArrivedGrows(s: Sys, x: Id, prompt: seq<Token>)
    requires x !in s.data
    ensures AllGrow(s.data, Arrived(s, x, prompt).data)
  {
  }

  lemma ResumedGrows(s: Sys, x: Id, tokens: seq<Token>)
    requires x in s.data && x in s.paused
    ensures AllGrow(s.data, Resumed(s, x, tokens).data)
  {
  }

  lemma DepartedGrows(s: Sys, x: Id, status: Status, pool: Pool)
    requires x in s.data
    ensures AllGrow(s.data, Departed(s, x, status, pool).data)
  {
  }

  lemma CopiesRefine(s: Sys, l: Log, cache: Mem)
    requires Sound(s, l) && !l.clash && SameMem(cache, l.start)
    ensures s.pool.tables.Keys <= s.data.Keys
    ensures Refines(s.b, s.pool.tables, s.data, CopyIn(CopyOut(cache, l.outs), l.ins))
    ensures l.outs == map[] && l.ins == map[] ==> Refines(s.b, s.pool.tables, s.data, cache)
  {
    hide Refines, PoolOk, Exclusive, AllGood, Queues, Replays, Apart, Unread;
    var after := CopyIn(CopyOut(cache, l.outs), l.ins);
    DeferredCopies(l, cache);
    assert SameMem(l.now, after);
    RefinesInCache(s.b, s.pool.tables, s.data, l.now, after);
    if l.outs == map[] && l.ins == map[] {
      assert SameMem(after, cache);
      RefinesInCache(s.b, s.pool.tables, s.data, after, cache);
    }
  }
}
