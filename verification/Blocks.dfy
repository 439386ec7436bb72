/** Physical blocks, the two arenas they come from, and the block tables that
    share them.  These are the values that the allocator and manager classes
    of BlockManager.dfy are proved against. */
module Blocks {
  import opened Basics

  datatype Device = GPU | CPU

  /** The identity of a physical block; its reference count lives in its arena. */
  datatype Block = Block(device: Device, number: nat)

  type Table = seq<Block>

  /** One allocator's state: the stack of free block numbers, and a reference count for every block. */
  datatype Arena = Arena(free: seq<nat>, refs: seq<nat>) {
    /** The free list has no duplicates and lists exactly the unreferenced blocks. */
    ghost predicate Ok() {
      && NoDup(free)
      && (forall n :: n in free ==> n < |refs| && refs[n] == 0)
      && (forall n :: 0 <= n < |refs| && refs[n] == 0 ==> n in free)
    }
  }

  datatype Pool = Pool(gpu: Arena, cpu: Arena, tables: map<Id, Table>) {
    function On(d: Device): Arena {
      if d.GPU? then gpu else cpu
    }

    predicate Has(b: Block) {
      b.number < |On(b.device).refs|
    }

    function Ref(b: Block): nat
      requires Has(b)
    {
      On(b.device).refs[b.number]
    }
  }

  /** The sequences whose tables list block `b`. */
  ghost function Owners(tables: map<Id, Table>, b: Block): set<Id> {
    set id | id in tables && b in tables[id]
  }

  ghost predicate TableOk(p: Pool, t: Table) {
    && NoDup(t)
    && forall b :: b in t ==> p.Has(b)
  }

  /** Reference counting is exact: every block's count is the number of tables
      that list it, and a block is on its free list exactly when no table does. */
  ghost predicate PoolOk(p: Pool) {
    && p.gpu.Ok()
    && p.cpu.Ok()
    && (forall id {:trigger TableOk(p, p.tables[id])} :: id in p.tables ==> TableOk(p, p.tables[id]))
    && (forall b :: p.Has(b) ==> p.Ref(b) == |Owners(p.tables, b)|)
  }

  /** No block is shared: what holds while every group has one sequence. */
  ghost predicate Exclusive(tables: map<Id, Table>) {
    forall x, y, b :: x in tables && y in tables && x != y && b in tables[x] ==> b !in tables[y]
  }

  ghost predicate Unowned(tables: map<Id, Table>, b: Block) {
    forall id :: id in tables ==> b !in tables[id]
  }

  lemma PoolParts(p: Pool, id: Id)
    requires PoolOk(p)
    ensures p.gpu.Ok() && p.cpu.Ok()
    ensures id in p.tables ==> TableOk(p, p.tables[id])
  {
  }

  lemma OwnedHasRef(p: Pool, id: Id, b: Block)
    requires PoolOk(p) && id in p.tables && b in p.tables[id]
    ensures p.Has(b) && p.Ref(b) >= 1
    ensures b.number !in p.On(b.device).free
  {
    assert TableOk(p, p.tables[id]);
    assert id in Owners(p.tables, b);
  }

  lemma FreeIffUnowned(p: Pool, b: Block)
    requires PoolOk(p) && p.Has(b)
    ensures b.number in p.On(b.device).free <==> Unowned(p.tables, b)
  {
    if b.number in p.On(b.device).free {
      forall id | id in p.tables ensures b !in p.tables[id] {
        if b in p.tables[id] {
          OwnedHasRef(p, id, b);
        }
      }
    } else {
      assert p.Ref(b) != 0;
      var id :| id in Owners(p.tables, b);
    }
  }

  /** How many times table `t` counts towards block `b`. */
  ghost function Share(t: Table, b: Block): nat {
    if b in t then 1 else 0
  }

  ghost function TableOf(tables: map<Id, Table>, id: Id): Table {
    if id in tables then tables[id] else []
  }

  lemma OwnersAfterSet(tables: map<Id, Table>, id: Id, t: Table, b: Block)
    ensures |Owners(tables[id := t], b)| == |Owners(tables, b)| - Share(TableOf(tables, id), b) + Share(t, b)
  {
    var u := tables[id := t];
    var o, o' := Owners(tables, b), Owners(u, b);
    assert forall x :: x != id ==> (x in o <==> x in o');
    assert id in o' <==> b in t;
    SameButOne(o, o', id);
  }

  lemma SameButOne<T>(s: set<T>, t: set<T>, x: T)
    requires forall y :: y != x ==> (y in s <==> y in t)
    ensures |t| == |s| - (if x in s then 1 else 0) + (if x in t then 1 else 0)
  {
    assert s - {x} == t - {x};
    assert |s - {x}| == |s| - (if x in s then 1 else 0);
    assert |t - {x}| == |t| - (if x in t then 1 else 0);
  }

  lemma OwnersAfterDrop(tables: map<Id, Table>, id: Id, b: Block)
    requires id in tables
    ensures |Owners(tables - {id}, b)| == |Owners(tables, b)| - Share(tables[id], b)
  {
    var o, o' := Owners(tables, b), Owners(tables - {id}, b);
    assert o' == o - {id};
  }

  /** Setting one table keeps reference counting exact, whatever the operation was. */
  lemma SetTableKeepsPoolOk(p: Pool, q: Pool, id: Id, t: Table)
    requires PoolOk(p) && TableOk(p, t)
    requires q.tables == p.tables[id := t]
    requires |q.gpu.refs| == |p.gpu.refs| && |q.cpu.refs| == |p.cpu.refs|
    requires q.gpu.Ok() && q.cpu.Ok()
    requires forall b :: p.Has(b) ==> q.Ref(b) == p.Ref(b) - Share(TableOf(p.tables, id), b) + Share(t, b)
    ensures PoolOk(q)
  {
    forall b | q.Has(b) ensures q.Ref(b) == |Owners(q.tables, b)| {
      OwnersAfterSet(p.tables, id, t, b);
    }
    forall x | x in q.tables ensures TableOk(q, q.tables[x]) {
      assert TableOk(p, q.tables[x]) by { if x != id { assert q.tables[x] == p.tables[x]; } }
    }
  }

  /** Dropping one table keeps reference counting exact. */
  lemma DropTableKeepsPoolOk(p: Pool, q: Pool, id: Id)
    requires PoolOk(p) && id in p.tables
    requires q.tables == p.tables - {id}
    requires |q.gpu.refs| == |p.gpu.refs| && |q.cpu.refs| == |p.cpu.refs|
    requires q.gpu.Ok() && q.cpu.Ok()
    requires forall b :: p.Has(b) ==> q.Ref(b) == p.Ref(b) - Share(p.tables[id], b)
    ensures PoolOk(q)
  {
    forall b | q.Has(b) ensures q.Ref(b) == |Owners(q.tables, b)| {
      OwnersAfterDrop(p.tables, id, b);
    }
    forall x | x in q.tables ensures TableOk(q, q.tables[x]) {
      assert TableOk(p, p.tables[x]);
    }
  }

  lemma ReplacedMembers(t: Table, i: nat, c: Block)
    requires NoDup(t) && i < |t| && c !in t
    ensures NoDup(t[i := c])
    ensures forall b :: b in t[i := c] <==> b == c || (b in t && b != t[i])
  {
    var u := t[i := c];
    forall b | b in t && b != t[i] ensures b in u {
      var k :| 0 <= k < |t| && t[k] == b;
      assert u[k] == b;
    }
    assert u[i] == c;
  }

  lemma UnownedNoRef(p: Pool, b: Block)
    requires PoolOk(p) && p.Has(b) && Unowned(p.tables, b)
    ensures p.Ref(b) == 0
  {
    assert Owners(p.tables, b) == {};
  }
}
