/** What the KV-cache cells hold.  `now` is the memory in which every block copy happens at the moment
    the scheduler decides it; the real engine defers an iteration's copies and runs all copies to the
    CPU before all copies to the GPU.  `Journal` says when the two agree. */
module Memory {
  import opened Basics
  import opened Blocks
  import opened Sequences
  import opened Layouts
  import opened System
  import opened BlockManager

  /** A cell holds the keys and values of one token of one sequence. */
  datatype Tag = Tag(id: Id, position: nat)

  type Cells = map<nat, Tag>
  type Mem = Block -> Cells

  /** `start` is the real memory when the pending copies were last executed. */
  datatype Log = Log(start: Mem, now: Mem, outs: map<nat, nat>, ins: map<nat, nat>, clash: bool)

  /** Cells `c` hold logical block `k` of sequence `id` as far as `cached` tokens reach. */
  ghost predicate BlockHolds(c: Cells, id: Id, k: nat, b: nat, cached: int) {
    forall o :: 0 <= o < b && k * b + o < cached ==> o in c && c[o] == Tag(id, k * b + o)
  }

  ghost predicate RowHolds(t: Table, id: Id, b: nat, cached: int, mem: Mem) {
    forall k :: 0 <= k < |t| ==> BlockHolds(mem(t[k]), id, k, b, cached)
  }

  /** Cache refinement: every block of every table holds exactly its sequence's cached tokens. */
  ghost predicate Refines(b: nat, tables: map<Id, Table>, data: map<Id, SeqRec>, mem: Mem)
    requires tables.Keys <= data.Keys
  {
    forall id {:trigger RowHolds(tables[id], id, b, data[id].Cached(), mem)} ::
      id in tables ==> RowHolds(tables[id], id, b, data[id].Cached(), mem)
  }

  /** The memory after table `t` became `u`: each moved block brings its cells along. */
  ghost function MoveCells(mem: Mem, t: Table, u: Table): Mem {
    (x: Block) => if x in u && IndexOf(u, x) < |t| then mem(t[IndexOf(u, x)]) else mem(x)
  }

  lemma {:induction false} IndexOfNoDup(u: Table, k: nat)
    requires NoDup(u) && k < |u|
    ensures IndexOf(u, u[k]) == k
  {
    assert u[IndexOf(u, u[k])] == u[k];
  }

  lemma MoveCellsAt(mem: Mem, t: Table, u: Table, k: nat)
    requires NoDup(u) && k < |t| <= |u|
    ensures MoveCells(mem, t, u)(u[k]) == mem(t[k])
  {
    IndexOfNoDup(u, k);
  }

  /** Cells of blocks outside the new table, or at the same place in both tables, stay. */
  lemma MoveCellsElsewhere(mem: Mem, t: Table, u: Table, x: Block)
    requires NoDup(u) && |t| <= |u|
    requires x !in u || (exists k :: 0 <= k < |u| && u[k] == x && (k < |t| ==> t[k] == x))
    ensures MoveCells(mem, t, u)(x) == mem(x)
  {
    if x in u {
      var k :| 0 <= k < |u| && u[k] == x && (k < |t| ==> t[k] == x);
      IndexOfNoDup(u, k);
    }
  }

  /** Moving one table's blocks keeps every row intact. */
  lemma MoveRefines(b: nat, tables: map<Id, Table>, data: map<Id, SeqRec>, mem: Mem,
                    id: Id, u: Table, from: Device, m: map<nat, nat>)
    requires b > 0 && tables.Keys <= data.Keys && Exclusive(tables) && id in data
    requires Refines(b, tables, data, mem)
    requires Moved(tables, TableOf(tables, id), u, from, m)
    requires data[id].Cached() <= |TableOf(tables, id)| * b
    ensures Refines(b, tables[id := u], data, MoveCells(mem, TableOf(tables, id), u))
  {
    var t, tables', mem' := TableOf(tables, id), tables[id := u], MoveCells(mem, TableOf(tables, id), u);
    forall x, k | x in tables' && 0 <= k < |tables'[x]|
      ensures BlockHolds(mem'(tables'[x][k]), x, k, b, data[x].Cached())
    {
      if x != id {
        assert RowHolds(tables[x], x, b, data[x].Cached(), mem);
        MovedKeepsOthers(tables, id, u, from, m, mem, x, tables[x][k]);
      } else if k < |t| {
        assert RowHolds(tables[id], id, b, data[id].Cached(), mem);
        MoveCellsAt(mem, t, u, k);
      } else {
        MulMono(|t|, k, b);
      }
    }
  }

  lemma MovedKeepsOthers(tables: map<Id, Table>, id: Id, u: Table, from: Device, m: map<nat, nat>, mem: Mem, y: Id,
                         x: Block)
    requires Exclusive(tables) && Moved(tables, TableOf(tables, id), u, from, m)
    requires y in tables && y != id && x in tables[y]
    ensures MoveCells(mem, TableOf(tables, id), u)(x) == mem(x)
  {
    var t := TableOf(tables, id);
    forall k | 0 <= k < |u| ensures u[k] != x {
      if k < |t| && u[k] == t[k] {
        assert id in tables && t[k] in tables[id];
      } else {
        assert Unowned(tables, u[k]);
      }
    }
    MoveCellsElsewhere(mem, t, u, x);
  }

  predicate InBatch(place: map<Id, Place>, id: Id) {
    id in place && (place[id].AtScheduled? || place[id].AtBatch?)
  }

  /** Copies are made in the order of their sources: of those with one target the last one wins. */
  ghost predicate Wins(m: map<nat, nat>, g: nat) {
    g in m && forall h :: h in m && m[h] == m[g] ==> h <= g
  }

  /** Executing `outs` and then `ins` on `start` gives `now`. */
  ghost predicate Replays(l: Log) {
    && (forall g {:trigger Wins(l.outs, g)} :: Wins(l.outs, g) ==>
         l.now(Block(CPU, l.outs[g])) == l.start(Block(GPU, g)))
    && (forall x: Block :: x.device.CPU? && x.number !in l.outs.Values ==> l.now(x) == l.start(x))
    && (forall c :: c in l.ins ==> l.now(Block(GPU, l.ins[c])) == l.now(Block(CPU, c)))
    && (forall x: Block :: x.device.GPU? && x.number !in l.ins.Values ==> l.now(x) == l.start(x))
  }

  /** Blocks swapped in belong to the batch, and blocks swapped out are not a waiting request's any more. */
  ghost predicate Apart(l: Log, tables: map<Id, Table>, place: map<Id, Place>) {
    && OneToOne(l.ins)
    && (forall n :: n in l.ins.Values ==> !Unowned(tables, Block(GPU, n)))
    && (forall id, x :: id in tables && x in tables[id] && x.device.GPU? && x.number in l.ins.Values ==>
         InBatch(place, id))
    && (forall id, x :: id in tables && x in tables[id] && x.device.GPU? && x.number in l.outs ==> InBatch(place, id))
  }

  /** A CPU block whose swap-in is pending is not in use. */
  ghost predicate Unread(l: Log, tables: map<Id, Table>) {
    forall id, x :: id in tables && x in tables[id] && x.device.CPU? ==> x.number !in l.ins
  }

  /** Two pending copies use one CPU block: two copies out, or one out and one in. */
  ghost predicate Meets(outs: map<nat, nat>, ins: map<nat, nat>) {
    !OneToOne(outs) || exists g :: g in outs && outs[g] in ins
  }

  ghost predicate Journal(l: Log, tables: map<Id, Table>, place: map<Id, Place>) {
    && Apart(l, tables, place)
    && (if l.clash then Meets(l.outs, l.ins) else Replays(l) && Unread(l, tables))
  }

  /** An older copy to the same CPU block is made later. */
  ghost predicate Beaten(outs: map<nat, nat>, g: nat, c: nat) {
    exists h :: h in outs && outs[h] == c && g < h
  }

  /** Some copy out is undone by an older one that is made later, or spoils a pending copy in. */
  ghost predicate Clashes(l: Log, m: map<nat, nat>) {
    exists g :: g in m && (Beaten(l.outs, g, m[g]) || m[g] in l.ins)
  }

  ghost function LoggedOut(l: Log, t: Table, u: Table, m: map<nat, nat>): Log {
    l.(now := MoveCells(l.now, t, u), outs := l.outs + m, clash := l.clash || Clashes(l, m))
  }

  ghost function LoggedIn(l: Log, t: Table, u: Table, m: map<nat, nat>): Log {
    l.(now := MoveCells(l.now, t, u), ins := l.ins + m)
  }

  lemma JournalOut(l: Log, tables: map<Id, Table>, place: map<Id, Place>, id: Id, u: Table, m: map<nat, nat>)
    requires Journal(l, tables, place) && Exclusive(tables) && id in tables && !InBatch(place, id)
    requires NoDup(tables[id]) && Moved(tables, tables[id], u, GPU, m) && |u| == |tables[id]|
    ensures Journal(LoggedOut(l, tables[id], u, m), tables[id := u], place)
  {
    hide Replays, Apart, Unread, Meets, Clashes, Moved, Exclusive;
    ApartOut(l, tables, place, id, u, m);
    if l.clash || Clashes(l, m) {
      MeetsOut(l, tables, place, id, u, m);
    } else {
      ReplaysOut(l, tables, place, id, u, m);
      UnreadOut(l, tables, id, u, m);
    }
  }

  /** No block is copied out twice. */
  lemma NewSources(l: Log, tables: map<Id, Table>, place: map<Id, Place>, id: Id, u: Table, m: map<nat, nat>)
    requires Apart(l, tables, place) && id in tables && !InBatch(place, id) && Moved(tables, tables[id], u, GPU, m)
    ensures forall g :: g in m ==> g !in l.outs && g !in l.ins.Values
  {
    forall g | g in m ensures g !in l.outs && g !in l.ins.Values {
      var k := MovedBack(tables, tables[id], u, GPU, m, g);
      assert tables[id][k] in tables[id];
    }
  }

  lemma MeetsOut(l: Log, tables: map<Id, Table>, place: map<Id, Place>, id: Id, u: Table, m: map<nat, nat>)
    requires Apart(l, tables, place) && id in tables && !InBatch(place, id) && Moved(tables, tables[id], u, GPU, m)
    requires Meets(l.outs, l.ins) || Clashes(l, m)
    ensures Meets(l.outs + m, l.ins)
  {
    hide Moved, Apart;
    NewSources(l, tables, place, id, u, m);
    var outs := l.outs + m;
    assert forall g :: g in l.outs ==> g in outs && outs[g] == l.outs[g];
    if Clashes(l, m) {
      var g :| g in m && (Beaten(l.outs, g, m[g]) || m[g] in l.ins);
      assert g in outs && outs[g] == m[g];
    }
  }

  lemma MovedBack(tables: map<Id, Table>, t: Table, u: Table, from: Device, m: map<nat, nat>, n: nat) returns (k: nat)
    requires Moved(tables, t, u, from, m) && n in m
    ensures k < |t| && t[k] == Block(from, n) && u[k] == Block(Other(from), m[n]) && Unowned(tables, u[k])
  {
    k :| 0 <= k < |t| && t[k] == Block(from, n) && u[k] != t[k];
    assert MovedEntry(tables, t[k], u[k], from, m);
  }

  lemma ReplaysOut(l: Log, tables: map<Id, Table>, place: map<Id, Place>, id: Id, u: Table, m: map<nat, nat>)
    requires Replays(l) && Apart(l, tables, place) && Exclusive(tables) && id in tables && !InBatch(place, id)
    requires Moved(tables, tables[id], u, GPU, m) && |u| == |tables[id]| && !Clashes(l, m)
    ensures Replays(LoggedOut(l, tables[id], u, m))
  {
    hide Exclusive, Apart, Moved, Clashes;
    var t, l' := tables[id], LoggedOut(l, tables[id], u, m);
    forall x: Block | !(x.device.CPU? && x.number in m.Values) ensures l'.now(x) == l.now(x) {
      OnlyTargetsChange(l.now, tables, t, u, m, x);
    }
    forall g | Wins(l'.outs, g) ensures l'.now(Block(CPU, l'.outs[g])) == l'.start(Block(GPU, g)) {
      WinnerOut(l, tables, place, id, u, m, g);
    }
    OutsKeep(l, tables, place, id, m, t, u);
    NoneRead(l, m);
  }

  lemma NoneRead(l: Log, m: map<nat, nat>)
    requires !Clashes(l, m)
    ensures forall c :: c in l.ins ==> c !in m.Values
  {
    forall c | c in l.ins ensures c !in m.Values {
      assert forall g :: g in m ==> m[g] != c;
    }
  }

  lemma WinnerOut(l: Log, tables: map<Id, Table>, place: map<Id, Place>, id: Id, u: Table, m: map<nat, nat>, g: nat)
    requires Replays(l) && Apart(l, tables, place) && id in tables && !InBatch(place, id)
    requires Moved(tables, tables[id], u, GPU, m) && |u| == |tables[id]| && !Clashes(l, m) && Wins(l.outs + m, g)
    ensures MoveCells(l.now, tables[id], u)(Block(CPU, (l.outs + m)[g])) == l.start(Block(GPU, g))
  {
    var t, outs := tables[id], l.outs + m;
    NewSources(l, tables, place, id, u, m);
    if g in m {
      var k := MovedBack(tables, t, u, GPU, m, g);
      MoveCellsAt(l.now, t, u, k);
    } else {
      forall h | h in l.outs && l.outs[h] == l.outs[g] ensures h <= g {
        assert h in outs && outs[h] == l.outs[h];
      }
      assert Wins(l.outs, g);
      forall h | h in m ensures m[h] != l.outs[g] {
        assert h in outs && outs[h] == m[h];
        assert !Beaten(l.outs, h, m[h]);
      }
      OnlyTargetsChange(l.now, tables, t, u, m, Block(CPU, l.outs[g]));
    }
  }

  lemma OutsKeep(l: Log, tables: map<Id, Table>, place: map<Id, Place>, id: Id, m: map<nat, nat>, t: Table, u: Table)
    requires Apart(l, tables, place) && id in tables && tables[id] == t && !InBatch(place, id)
    requires Moved(tables, t, u, GPU, m)
    ensures forall c :: c in l.outs.Values ==> c in (l.outs + m).Values
    ensures forall c :: c in (l.outs + m).Values <==> c in l.outs.Values || c in m.Values
  {
    hide Apart, Moved;
    NewSources(l, tables, place, id, u, m);
    forall c | c in l.outs.Values || c in m.Values ensures c in (l.outs + m).Values {
      if c in l.outs.Values {
        var g :| g in l.outs && l.outs[g] == c;
        assert (l.outs + m)[g] == c;
      } else {
        var g :| g in m && m[g] == c;
        assert (l.outs + m)[g] == c;
      }
    }
  }

  lemma OnlyTargetsChange(mem: Mem, tables: map<Id, Table>, t: Table, u: Table, m: map<nat, nat>, x: Block)
    requires Moved(tables, t, u, GPU, m) && |u| == |t|
    requires !(x.device.CPU? && x.number in m.Values)
    ensures MoveCells(mem, t, u)(x) == mem(x)
  {
    forall k | 0 <= k < |u| && u[k] == x ensures t[k] == x {
      assert u[k] == t[k] || MovedEntry(tables, t[k], u[k], GPU, m);
    }
    if x in u {
      assert u[IndexOf(u, x)] == x;
    }
    MoveCellsElsewhere(mem, t, u, x);
  }

  lemma ApartOut(l: Log, tables: map<Id, Table>, place: map<Id, Place>, id: Id, u: Table, m: map<nat, nat>)
    requires Apart(l, tables, place) && Exclusive(tables) && id in tables && !InBatch(place, id)
    requires NoDup(tables[id]) && Moved(tables, tables[id], u, GPU, m) && |u| == |tables[id]|
    ensures Apart(LoggedOut(l, tables[id], u, m), tables[id := u], place)
  {
    hide Moved, Exclusive, OneToOne;
    var tables' := tables[id := u];
    forall y: Id, x: Block | y in tables' && x in tables'[y] && x.device.GPU?
      ensures y in tables && x in tables[y] && x.number !in m
    {
      OutMember(tables, id, u, m, y, x);
    }
    forall n | n in l.ins.Values ensures !Unowned(tables', Block(GPU, n)) {
      var y :| y in tables && Block(GPU, n) in tables[y];
      assert y != id;
      assert tables'[y] == tables[y];
    }
  }

  /** The GPU blocks that are left. */
  lemma OutMember(tables: map<Id, Table>, id: Id, u: Table, m: map<nat, nat>, y: Id, x: Block)
    requires Exclusive(tables) && id in tables
    requires NoDup(tables[id]) && Moved(tables, tables[id], u, GPU, m) && |u| == |tables[id]|
    requires y in tables[id := u] && x in tables[id := u][y] && x.device.GPU?
    ensures y in tables && x in tables[y] && x.number !in m
  {
    var t := tables[id];
    if y == id {
      var k :| 0 <= k < |u| && u[k] == x;
      assert u[k] == t[k] || MovedEntry(tables, t[k], u[k], GPU, m);
      assert t[k] in tables[id];
      forall n | n in m ensures n != x.number {
        var j := MovedBack(tables, t, u, GPU, m, n);
        assert j != k;
      }
    } else {
      forall n | n in m ensures n != x.number {
        var k := MovedBack(tables, t, u, GPU, m, n);
        assert t[k] in tables[id];
      }
    }
  }

  lemma UnreadOut(l: Log, tables: map<Id, Table>, id: Id, u: Table, m: map<nat, nat>)
    requires Unread(l, tables) && id in tables && Moved(tables, tables[id], u, GPU, m) && |u| == |tables[id]|
    requires !Clashes(l, m)
    ensures Unread(LoggedOut(l, tables[id], u, m), tables[id := u])
  {
    var tables' := tables[id := u];
    forall y: Id, x: Block | y in tables' && x in tables'[y] && x.device.CPU? ensures x.number !in l.ins {
      if y == id {
        var k :| 0 <= k < |u| && u[k] == x;
        assert u[k] == tables[id][k] || MovedEntry(tables, tables[id][k], u[k], GPU, m);
        assert tables[id][k] in tables[id];
      }
    }
  }

  lemma JournalIn(l: Log, tables: map<Id, Table>, place: map<Id, Place>, id: Id, u: Table, m: map<nat, nat>)
    requires Journal(l, tables, place) && Exclusive(tables) && InBatch(place, id)
    requires NoDup(TableOf(tables, id)) && Moved(tables, TableOf(tables, id), u, CPU, m)
    ensures Journal(LoggedIn(l, TableOf(tables, id), u, m), tables[id := u], place)
  {
    hide Replays, Apart, Unread, Moved, Exclusive;
    ApartIn(l, tables, place, id, u, m);
    if !l.clash {
      ReplaysIn(l, tables, place, id, u, m);
      UnreadIn(l, tables, id, u, m);
    }
  }

  lemma OnlyFreshChange(mem: Mem, tables: map<Id, Table>, t: Table, u: Table, m: map<nat, nat>, x: Block)
    requires Moved(tables, t, u, CPU, m)
    requires !(x.device.GPU? && x.number in m.Values)
    ensures MoveCells(mem, t, u)(x) == mem(x)
  {
    forall k | 0 <= k < |u| && u[k] == x ensures k < |t| ==> t[k] == x {
      assert k < |t| ==> u[k] == t[k] || MovedEntry(tables, t[k], u[k], CPU, m);
    }
    if x in u {
      assert u[IndexOf(u, x)] == x;
    }
    MoveCellsElsewhere(mem, t, u, x);
  }

  lemma InsKeep(l: Log, tables: map<Id, Table>, id: Id, m: map<nat, nat>, u: Table)
    requires Moved(tables, TableOf(tables, id), u, CPU, m) && Unread(l, tables)
    ensures forall c :: c in m ==> c !in l.ins
    ensures forall c :: c in (l.ins + m).Values <==> c in l.ins.Values || c in m.Values
    ensures forall c :: c in m ==> Unowned(tables, Block(GPU, m[c]))
  {
    var t := TableOf(tables, id);
    forall c | c in m ensures c !in l.ins && Unowned(tables, Block(GPU, m[c])) {
      var k := MovedBack(tables, t, u, CPU, m, c);
      assert id in tables && t[k] in tables[id];
    }
    forall c | c in l.ins.Values || c in m.Values ensures c in (l.ins + m).Values {
      if c in l.ins.Values {
        var g :| g in l.ins && l.ins[g] == c;
        assert (l.ins + m)[g] == c;
      } else {
        var g :| g in m && m[g] == c;
        assert (l.ins + m)[g] == c;
      }
    }
  }

  lemma ReplaysIn(l: Log, tables: map<Id, Table>, place: map<Id, Place>, id: Id, u: Table, m: map<nat, nat>)
    requires Replays(l) && Apart(l, tables, place) && Unread(l, tables)
    requires Moved(tables, TableOf(tables, id), u, CPU, m)
    ensures Replays(LoggedIn(l, TableOf(tables, id), u, m))
  {
    var t := TableOf(tables, id);
    InsKeep(l, tables, id, m, u);
    forall x: Block | !(x.device.GPU? && x.number in m.Values) ensures MoveCells(l.now, t, u)(x) == l.now(x) {
      OnlyFreshChange(l.now, tables, t, u, m, x);
    }
    forall c | c in m ensures MoveCells(l.now, t, u)(Block(GPU, m[c])) == l.now(Block(CPU, c)) {
      SwappedInCell(l, tables, t, u, m, c);
    }
    InsReplay(l, tables, MoveCells(l.now, t, u), m);
  }

  lemma InsReplay(l: Log, tables: map<Id, Table>, now: Mem, m: map<nat, nat>)
    requires Replays(l) && forall n :: n in l.ins.Values ==> !Unowned(tables, Block(GPU, n))
    requires forall c :: c in m ==> c !in l.ins && Unowned(tables, Block(GPU, m[c]))
    requires forall c :: c in (l.ins + m).Values <==> c in l.ins.Values || c in m.Values
    requires forall x: Block :: !(x.device.GPU? && x.number in m.Values) ==> now(x) == l.now(x)
    requires forall c :: c in m ==> now(Block(GPU, m[c])) == l.now(Block(CPU, c))
    ensures Replays(l.(now := now, ins := l.ins + m))
  {
    hide Unowned;
    var l' := l.(now := now, ins := l.ins + m);
    forall c | c in l'.ins ensures l'.now(Block(GPU, l'.ins[c])) == l'.now(Block(CPU, c)) {
      if c !in m {
        assert l.ins[c] in l.ins.Values;
      }
    }
  }

  lemma SwappedInCell(l: Log, tables: map<Id, Table>, t: Table, u: Table, m: map<nat, nat>, c: nat)
    requires Moved(tables, t, u, CPU, m) && c in m
    ensures MoveCells(l.now, t, u)(Block(GPU, m[c])) == l.now(Block(CPU, c))
  {
    var k := MovedBack(tables, t, u, CPU, m, c);
    MoveCellsAt(l.now, t, u, k);
  }

  lemma ApartIn(l: Log, tables: map<Id, Table>, place: map<Id, Place>, id: Id, u: Table, m: map<nat, nat>)
    requires Apart(l, tables, place) && Exclusive(tables) && InBatch(place, id)
    requires Moved(tables, TableOf(tables, id), u, CPU, m)
    ensures Apart(LoggedIn(l, TableOf(tables, id), u, m), tables[id := u], place)
  {
    hide Moved, Exclusive;
    var t, ins, tables' := TableOf(tables, id), l.ins + m, tables[id := u];
    TargetsIn(tables, id, u, m);
    assert forall n :: n in ins.Values ==> n in l.ins.Values || n in m.Values;
    forall y: Id, x: Block | y in tables' && x in tables'[y] && x.device.GPU? && y != id
      ensures y in tables && x in tables[y] && x.number !in m.Values
    {
      assert !Unowned(tables, x);
    }
    GpuMembers(tables, id, u, m);
    forall n | n in ins.Values ensures !Unowned(tables', Block(GPU, n)) {
      if n in m.Values {
        assert Block(GPU, n) in tables'[id];
      } else {
        var y :| y in tables && Block(GPU, n) in tables[y];
        GpuKept(tables, id, u, m, y, Block(GPU, n));
        assert Block(GPU, n) in tables'[y];
      }
    }
    assert OneToOne(ins) by { OneToOneIn(l, tables, id, u, m); }
  }

  /** The targets of a swap-in are new blocks, and the table lists them afterwards. */
  lemma TargetsIn(tables: map<Id, Table>, id: Id, u: Table, m: map<nat, nat>)
    requires Moved(tables, TableOf(tables, id), u, CPU, m)
    ensures forall n :: n in m.Values ==> Block(GPU, n) in u && Unowned(tables, Block(GPU, n))
  {
    forall n | n in m.Values ensures Block(GPU, n) in u && Unowned(tables, Block(GPU, n)) {
      var c :| c in m && m[c] == n;
      var k := MovedBack(tables, TableOf(tables, id), u, CPU, m, c);
      assert u[k] in u;
    }
  }

  lemma GpuMembers(tables: map<Id, Table>, id: Id, u: Table, m: map<nat, nat>)
    requires Moved(tables, TableOf(tables, id), u, CPU, m)
    ensures forall x :: x in TableOf(tables, id) && x.device.GPU? ==> x in u
  {
    forall x | x in TableOf(tables, id) && x.device.GPU? ensures x in u {
      GpuKept(tables, id, u, m, id, x);
    }
  }

  lemma OneToOneIn(l: Log, tables: map<Id, Table>, id: Id, u: Table, m: map<nat, nat>)
    requires OneToOne(l.ins) && (forall n :: n in l.ins.Values ==> !Unowned(tables, Block(GPU, n)))
    requires Moved(tables, TableOf(tables, id), u, CPU, m)
    ensures OneToOne(l.ins + m)
  {
    var ins, t := l.ins + m, TableOf(tables, id);
    TargetsIn(tables, id, u, m);
    forall a, b | a in m && b in m && m[a] == m[b] ensures a == b {
      var j := MovedBack(tables, t, u, CPU, m, a);
      var k := MovedBack(tables, t, u, CPU, m, b);
      assert j == k;
    }
    forall a, b | a in l.ins && b in m ensures l.ins[a] != m[b] {
      assert l.ins[a] in l.ins.Values && m[b] in m.Values;
    }
  }

  lemma UnreadIn(l: Log, tables: map<Id, Table>, id: Id, u: Table, m: map<nat, nat>)
    requires Unread(l, tables) && Exclusive(tables)
    requires NoDup(TableOf(tables, id)) && Moved(tables, TableOf(tables, id), u, CPU, m)
    ensures Unread(LoggedIn(l, TableOf(tables, id), u, m), tables[id := u])
  {
    hide Moved, Exclusive;
    var tables' := tables[id := u];
    forall y: Id, x: Block | y in tables' && x in tables'[y] && x.device.CPU?
      ensures x.number !in l.ins && x.number !in m
    {
      CpuLeft(tables, id, u, m, y, x);
    }
  }

  lemma CpuLeft(tables: map<Id, Table>, id: Id, u: Table, m: map<nat, nat>, y: Id, x: Block)
    requires Exclusive(tables) && NoDup(TableOf(tables, id)) && Moved(tables, TableOf(tables, id), u, CPU, m)
    requires y in tables[id := u] && x in tables[id := u][y] && x.device.CPU?
    ensures y in tables && x in tables[y] && x.number !in m
  {
    var t := TableOf(tables, id);
    if y == id {
      var k :| 0 <= k < |u| && u[k] == x;
      assert k < |t| && (u[k] == t[k] || MovedEntry(tables, t[k], u[k], CPU, m));
      forall n | n in m ensures n != x.number {
        var j := MovedBack(tables, t, u, CPU, m, n);
        assert j != k;
        assert t[j] in tables[id] && u[j] != u[k];
      }
    } else {
      forall n | n in m ensures n != x.number {
        var j := MovedBack(tables, t, u, CPU, m, n);
        assert id in tables && t[j] in tables[id];
      }
    }
  }

  lemma GpuKept(tables: map<Id, Table>, id: Id, u: Table, m: map<nat, nat>, y: Id, x: Block)
    requires Moved(tables, TableOf(tables, id), u, CPU, m)
    requires y in tables && x in tables[y] && x.device.GPU?
    ensures x in tables[id := u][y]
  {
    if y == id {
      var t := tables[id];
      var k :| 0 <= k < |t| && t[k] == x;
      assert u[k] == t[k] || MovedEntry(tables, t[k], u[k], CPU, m);
      assert u[k] == x;
    }
  }

  /** Freeing a table of a request outside the batch. */
  lemma JournalFree(l: Log, tables: map<Id, Table>, place: map<Id, Place>, id: Id)
    requires Journal(l, tables, place) && !InBatch(place, id)
    ensures Journal(l, tables - {id}, place)
  {
    forall n | n in l.ins.Values ensures !Unowned(tables - {id}, Block(GPU, n)) {
      var y :| y in tables && Block(GPU, n) in tables[y];
      assert y != id && (tables - {id})[y] == tables[y];
    }
  }

  /** Moving requests between places matters only to the batch. */
  lemma JournalPlace(l: Log, tables: map<Id, Table>, place: map<Id, Place>, place': map<Id, Place>)
    requires Journal(l, tables, place)
    requires forall id :: InBatch(place, id) ==> InBatch(place', id)
    ensures Journal(l, tables, place')
  {
  }
}
