/** What the scheduler's primitive steps keep, on values. */
module Steps {
  import opened Basics
  import opened Blocks
  import opened Sequences
  import opened Layouts
  import opened BlockManager
  import opened System
  import opened Memory

  /** The invariant of the whole scheduler: consistent queues and counters, exact block ownership,
      cells that refine the token sequences, and a journal of pending copies that replays to them. */
  ghost predicate Sound(s: Sys, l: Log) {
    && Inv(s)
    && Refines(s.b, s.pool.tables, s.data, l.now)
    && Journal(l, s.pool.tables, s.place)
    && Traced(s, l)
  }

  /** Cached token `k * b` of request `z` is on its way into the GPU from CPU block `c`. */
  ghost predicate Carries(s: Sys, l: Log, c: nat, z: Id, k: nat) {
    && z in s.pool.tables && z in s.data && c in l.ins
    && k < |s.pool.tables[z]| && s.pool.tables[z][k] == Block(GPU, l.ins[c]) && k * s.b < s.data[z].Cached()
  }

  /** The pending copies still serve the requests whose tokens they carry. */
  ghost predicate Traced(s: Sys, l: Log) {
    l.clash || (
      && (forall h {:trigger HomedAt(s, l, h)} :: h in l.outs ==> HomedAt(s, l, h))
      && (forall c {:trigger ReadAt(s, l, c)} :: c in l.ins ==> ReadAt(s, l, c)))
  }

  /** A copy out goes to a block of the request that it carries tokens of, if that request still has a table
      and has not joined the batch. */
  ghost predicate HomedAt(s: Sys, l: Log, h: nat)
    requires h in l.outs
  {
    var cell := l.start(Block(GPU, h));
    0 in cell && cell[0].id in s.pool.tables && !InBatch(s.place, cell[0].id) ==>
      Block(CPU, l.outs[h]) in s.pool.tables[cell[0].id]
  }

  /** A copy in fills a cached block of a request of the batch. */
  ghost predicate ReadAt(s: Sys, l: Log, c: nat) {
    exists z, k: nat :: InBatch(s.place, z) && Carries(s, l, c, z, k)
  }

  lemma TracedNone(s: Sys, l: Log)
    requires l.outs == map[] && l.ins == map[]
    ensures Traced(s, l)
  {
  }

  /** Requests may leave or join the batch's neighbourhood, as long as the batch stays and no table of another
      request changes. */
  lemma TracedKept(s: Sys, l: Log, s': Sys)
    requires Traced(s, l) && s'.b == s.b
    requires forall x :: InBatch(s.place, x) ==>
      InBatch(s'.place, x) && Lookup(s'.pool.tables, x) == Lookup(s.pool.tables, x)
    requires forall x :: InBatch(s.place, x) && x in s.data ==>
      x in s'.data && s'.data[x].Cached() == s.data[x].Cached()
    requires forall x :: x in s'.pool.tables && !InBatch(s'.place, x) ==>
      x in s.pool.tables && s'.pool.tables[x] == s.pool.tables[x]
    ensures Traced(s', l)
  {
    if !l.clash {
      forall h | h in l.outs ensures HomedAt(s', l, h) {
        assert HomedAt(s, l, h);
      }
      forall c | c in l.ins ensures ReadAt(s', l, c) {
        assert ReadAt(s, l, c);
        var z, k: nat :| InBatch(s.place, z) && Carries(s, l, c, z, k);
        assert Lookup(s'.pool.tables, z) == Lookup(s.pool.tables, z);
        assert Carries(s', l, c, z, k);
      }
    }
  }

  lemma TracedOne(s: Sys, l: Log, s': Sys, id: Id)
    requires Traced(s, l) && OthersSame(s, s', id)
    requires InBatch(s.place, id) ==> InBatch(s'.place, id) && Lookup(s'.pool.tables, id) == Lookup(s.pool.tables, id)
    requires InBatch(s.place, id) ==> s'.data[id].Cached() == s.data[id].Cached()
    requires id in s'.pool.tables ==> id in s.pool.tables && s'.pool.tables[id] == s.pool.tables[id]
    requires s'.pool.tables.Keys <= s'.place.Keys
    ensures Traced(s', l)
  {
    hide Traced, PoolOk, Exclusive;
    forall x | x in s.place && x != id ensures SameAt(s, s', x) {
    }
    TracedKept(s, l, s');
  }

  lemma TracedOut(s: Sys, l: Log, s': Sys, id: Id, m: map<nat, nat>)
    requires Sound(s, l) && OthersSame(s, s', id) && !InBatch(s.place, id) && !s.place[id].AtDone?
    requires id in s.pool.tables && id in s'.pool.tables && s'.pool.tables == s.pool.tables[id := s'.pool.tables[id]]
    requires |s'.pool.tables[id]| == |s.pool.tables[id]| && !InBatch(s'.place, id)
    requires Moved(s.pool.tables, s.pool.tables[id], s'.pool.tables[id], GPU, m)
    ensures Traced(s', LoggedOut(l, s.pool.tables[id], s'.pool.tables[id], m))
  {
    hide PoolOk, Exclusive, AllGood, Queues, Refines, Journal, Moved, MoveCells, HomedAt, ReadAt, OthersSame;
    var l' := LoggedOut(l, s.pool.tables[id], s'.pool.tables[id], m);
    if !l'.clash {
      forall h | h in l'.outs ensures HomedAt(s', l', h) {
        if h in m {
          NewHomed(s, l, s', id, m, h);
        } else {
          OldHomed(s, l, s', id, m, h);
        }
      }
      forall c | c in l'.ins ensures ReadAt(s', l', c) {
        OldRead(s, l, s', l', id, c);
      }
    }
  }

  lemma OldHomed(s: Sys, l: Log, s': Sys, id: Id, m: map<nat, nat>, h: nat)
    requires OthersSame(s, s', id) && h in l.outs && h !in m && HomedAt(s, l, h)
    requires id in s.pool.tables && id in s'.pool.tables && s'.pool.tables == s.pool.tables[id := s'.pool.tables[id]]
    requires Moved(s.pool.tables, s.pool.tables[id], s'.pool.tables[id], GPU, m) && !InBatch(s.place, id)
    requires s.pool.tables.Keys <= s.place.Keys
    ensures HomedAt(s', LoggedOut(l, s.pool.tables[id], s'.pool.tables[id], m), h)
  {
    hide PoolOk, Exclusive, MoveCells;
    var cell, b := l.start(Block(GPU, h)), Block(CPU, l.outs[h]);
    if 0 in cell && cell[0].id in s'.pool.tables && !InBatch(s'.place, cell[0].id) {
      var y := cell[0].id;
      if y == id {
        var k :| 0 <= k < |s.pool.tables[id]| && s.pool.tables[id][k] == b;
        assert s'.pool.tables[id][k] == b;
      } else {
        assert SameAt(s, s', y);
      }
    }
  }

  lemma NewHomed(s: Sys, l: Log, s': Sys, id: Id, m: map<nat, nat>, h: nat)
    requires Sound(s, l) && !l.clash && h in m && !InBatch(s.place, id) && id in s.place && !s.place[id].AtDone?
    requires id in s.pool.tables && id in s'.pool.tables
    requires Moved(s.pool.tables, s.pool.tables[id], s'.pool.tables[id], GPU, m)
    ensures HomedAt(s', LoggedOut(l, s.pool.tables[id], s'.pool.tables[id], m), h)
  {
    hide PoolOk, Exclusive, Queues, Moved, MoveCells, Traced, Unread;
    var k := MovedBack(s.pool.tables, s.pool.tables[id], s'.pool.tables[id], GPU, m, h);
    SoundParts(s, l, id);
    StartedRow(s, id, k);
    NewSources(l, s.pool.tables, s.place, id, s'.pool.tables[id], m);
    assert RowHolds(s.pool.tables[id], id, s.b, s.data[id].Cached(), l.now);
    assert BlockHolds(l.now(s.pool.tables[id][k]), id, k, s.b, s.data[id].Cached());
    assert k * s.b + 0 < s.data[id].Cached();
    MovedLength(s.pool.tables, s.pool.tables[id], s'.pool.tables[id], GPU, m);
    assert s'.pool.tables[id][k] == Block(CPU, m[h]);
  }

  lemma MovedLength(tables: map<Id, Table>, t: Table, u: Table, from: Device, m: map<nat, nat>)
    requires Moved(tables, t, u, from, m)
    ensures |t| <= |u|
  {
  }

  /** Outside the batch every block of a table holds a cached token. */
  lemma StartedRow(s: Sys, id: Id, k: nat)
    requires s.b > 0 && id in s.place && id in s.data && GoodAt(s, id) && !InBatch(s.place, id) && !s.place[id].AtDone?
    requires k < |TableOf(s.pool.tables, id)|
    ensures k * s.b < s.data[id].Cached()
  {
    hide GoodAt, CeilDiv;
    LaidOut(s, id);
    var n := |TableOf(s.pool.tables, id)|;
    CeilDivBounds(s.data[id].Cached(), s.b);
    MulMono(k + 1, n, s.b);
  }

  lemma LaidOut(s: Sys, id: Id)
    requires s.b > 0 && id in s.place && id in s.data && GoodAt(s, id) && !InBatch(s.place, id) && !s.place[id].AtDone?
    ensures 0 <= s.data[id].Cached() && |TableOf(s.pool.tables, id)| == CeilDiv(s.data[id].Cached(), s.b)
  {
    hide CeilDiv, GpuPrefix;
  }

  lemma OldRead(s: Sys, l: Log, s': Sys, l': Log, id: Id, c: nat)
    requires OthersSame(s, s', id) && !InBatch(s.place, id) && c in l.ins && ReadAt(s, l, c)
    requires c in l'.ins && l'.ins[c] == l.ins[c]
    ensures ReadAt(s', l', c)
  {
    hide PoolOk, Exclusive;
    var z, k: nat :| InBatch(s.place, z) && Carries(s, l, c, z, k);
    assert SameAt(s, s', z);
    assert Carries(s', l', c, z, k);
  }

  lemma TracedIn(s: Sys, l: Log, s': Sys, id: Id, m: map<nat, nat>)
    requires Sound(s, l) && OthersSame(s, s', id)
    requires !InBatch(s.place, id) && InBatch(s'.place, id) && !s.place[id].AtDone?
    requires id in s'.pool.tables && s'.pool.tables == s.pool.tables[id := s'.pool.tables[id]]
    requires Moved(s.pool.tables, TableOf(s.pool.tables, id), s'.pool.tables[id], CPU, m)
    requires s'.data[id].Cached() == s.data[id].Cached()
    ensures Traced(s', LoggedIn(l, TableOf(s.pool.tables, id), s'.pool.tables[id], m))
  {
    hide PoolOk, Exclusive, AllGood, Queues, Refines, Journal, Moved, MoveCells, HomedAt, ReadAt, OthersSame;
    var l' := LoggedIn(l, TableOf(s.pool.tables, id), s'.pool.tables[id], m);
    if !l'.clash {
      forall h | h in l'.outs ensures HomedAt(s', l', h) {
        JoinedHomed(s, l, s', l', id, h);
      }
      forall c | c in l'.ins ensures ReadAt(s', l', c) {
        if c in m {
          NewRead(s, l, s', id, m, c);
        } else {
          OldRead(s, l, s', l', id, c);
        }
      }
    }
  }

  lemma JoinedHomed(s: Sys, l: Log, s': Sys, l': Log, id: Id, h: nat)
    requires OthersSame(s, s', id) && InBatch(s'.place, id) && h in l.outs && HomedAt(s, l, h)
    requires l'.outs == l.outs && l'.start == l.start && s.pool.tables.Keys <= s.place.Keys
    requires id in s'.pool.tables && s'.pool.tables == s.pool.tables[id := s'.pool.tables[id]]
    ensures HomedAt(s', l', h)
  {
    hide PoolOk, Exclusive;
    var cell := l.start(Block(GPU, h));
    if 0 in cell && cell[0].id in s'.pool.tables && cell[0].id != id {
      assert SameAt(s, s', cell[0].id);
    }
  }

  lemma NewRead(s: Sys, l: Log, s': Sys, id: Id, m: map<nat, nat>, c: nat)
    requires Sound(s, l) && OthersSame(s, s', id) && c in m
    requires !InBatch(s.place, id) && InBatch(s'.place, id) && !s.place[id].AtDone?
    requires id in s'.pool.tables
    requires Moved(s.pool.tables, TableOf(s.pool.tables, id), s'.pool.tables[id], CPU, m)
    requires s'.data[id].Cached() == s.data[id].Cached()
    ensures ReadAt(s', LoggedIn(l, TableOf(s.pool.tables, id), s'.pool.tables[id], m), c)
  {
    hide PoolOk, Exclusive, Queues, Moved, MoveCells, Traced, Journal, Refines;
    var t, u := TableOf(s.pool.tables, id), s'.pool.tables[id];
    var l' := LoggedIn(l, t, u, m);
    var k := MovedBack(s.pool.tables, t, u, CPU, m, c);
    SoundParts(s, l, id);
    StartedRow(s, id, k);
    MovedLength(s.pool.tables, t, u, CPU, m);
    assert Carries(s', l', c, id, k);
  }

  lemma SoundInv(s: Sys, l: Log)
    requires Sound(s, l)
    ensures Inv(s) && s.b > 0
  {
  }

  lemma SoundParts(s: Sys, l: Log, id: Id)
    requires Sound(s, l) && id in s.place
    ensures s.b > 0 && id in s.data && GoodAt(s, id)
    ensures PoolOk(s.pool) && Exclusive(s.pool.tables)
    ensures id in s.pool.tables ==> NoDup(s.pool.tables[id])
  {
    if id in s.pool.tables {
      assert TableOk(s.pool, s.pool.tables[id]);
    }
  }

  ghost predicate OthersSame(s: Sys, s': Sys, id: Id) {
    && s'.b == s.b && s'.limit == s.limit
    && s'.data.Keys == s'.place.Keys == s.place.Keys == s.data.Keys && id in s.place
    && s'.pool.tables.Keys - {id} == s.pool.tables.Keys - {id}
    && (forall x :: x in s.place && x != id ==> SameAt(s, s', x))
    && PoolOk(s'.pool) && Exclusive(s'.pool.tables)
  }

  lemma OthersSameFrom(s: Sys, s': Sys, id: Id)
    requires s'.b == s.b && s'.limit == s.limit && id in s.place && s.data.Keys == s.place.Keys
    requires id in s'.data && s'.data == s.data[id := s'.data[id]]
    requires id in s'.place && s'.place == s.place[id := s'.place[id]]
    requires s'.pool.tables - {id} == s.pool.tables - {id}
    requires s'.paused - {id} == s.paused - {id}
    requires PoolOk(s'.pool) && Exclusive(s'.pool.tables)
    ensures OthersSame(s, s', id)
  {
    forall x | x in s.place && x != id ensures SameAt(s, s', x) {
      KeyAfterDrop(s.pool.tables, s'.pool.tables, id, x);
      KeyAfterDrop(s.paused, s'.paused, id, x);
    }
    assert s'.pool.tables.Keys - {id} == (s'.pool.tables - {id}).Keys;
    assert s.pool.tables.Keys - {id} == (s.pool.tables - {id}).Keys;
  }

  lemma KeyAfterDrop<V>(m: map<Id, V>, m': map<Id, V>, id: Id, x: Id)
    requires m' - {id} == m - {id} && x != id
    ensures Lookup(m', x) == Lookup(m, x)
  {
    assert x in m <==> x in m - {id};
    assert x in m' <==> x in m' - {id};
    if x in m {
      assert (m - {id})[x] == m[x] && (m' - {id})[x] == m'[x];
    }
  }

  /** A request outside the batch gives its table back (or had none). */
  lemma StepFree(s: Sys, l: Log, s': Sys, id: Id)
    requires Sound(s, l) && OthersSame(s, s', id)
    requires !InBatch(s.place, id) && !InBatch(s'.place, id)
    requires s'.pool.tables == s.pool.tables - {id}
    requires GoodAt(s', id) && Queues(s')
    ensures Sound(s', l)
  {
    hide Refines, Journal, Traced;
    OneChanged(s, s', id);
    RowsStay(s, l.now, s', id);
    JournalFree(l, s.pool.tables, s.place, id);
    JournalPlace(l, s'.pool.tables, s.place, s'.place);
    TracedOne(s, l, s', id);
  }

  lemma RowsStay(s: Sys, mem: Mem, s': Sys, id: Id)
    requires OthersSame(s, s', id) && s.pool.tables.Keys <= s.data.Keys && s.b > 0
    requires Refines(s.b, s.pool.tables, s.data, mem)
    requires id in s'.pool.tables ==> id in s.pool.tables && s'.pool.tables[id] == s.pool.tables[id]
    requires id in s'.pool.tables ==> s'.data[id].Cached() == s.data[id].Cached()
    requires s'.pool.tables.Keys <= s.place.Keys
    ensures Refines(s'.b, s'.pool.tables, s'.data, mem)
  {
    hide PoolOk, Exclusive;
    forall x | x in s'.pool.tables ensures RowHolds(s'.pool.tables[x], x, s'.b, s'.data[x].Cached(), mem) {
      assert x != id ==> SameAt(s, s', x);
      assert RowHolds(s.pool.tables[x], x, s.b, s.data[x].Cached(), mem);
    }
  }

  /** A request changes its counters, status or place, but neither its table nor what is cached. */
  lemma StepSame(s: Sys, l: Log, s': Sys, id: Id)
    requires Sound(s, l) && OthersSame(s, s', id)
    requires InBatch(s.place, id) ==> InBatch(s'.place, id)
    requires s'.pool.tables == s.pool.tables
    requires s'.data[id].Cached() == s.data[id].Cached()
    requires GoodAt(s', id) && Queues(s')
    ensures Sound(s', l)
  {
    hide Refines, Journal, Traced;
    OneChanged(s, s', id);
    RowsStay(s, l.now, s', id);
    BatchSame(s, s', id);
    JournalPlace(l, s'.pool.tables, s.place, s'.place);
    TracedOne(s, l, s', id);
  }

  /** GPU blocks of a request outside the batch move to the CPU. */
  lemma StepOut(s: Sys, l: Log, s': Sys, id: Id, m: map<nat, nat>)
    requires Sound(s, l) && OthersSame(s, s', id)
    requires !InBatch(s.place, id) && !InBatch(s'.place, id) && !s.place[id].AtDone?
    requires id in s.pool.tables && id in s'.pool.tables
    requires s'.pool.tables == s.pool.tables[id := s'.pool.tables[id]]
    requires |s'.pool.tables[id]| == |s.pool.tables[id]|
    requires Moved(s.pool.tables, s.pool.tables[id], s'.pool.tables[id], GPU, m)
    requires s'.data[id].Cached() == s.data[id].Cached()
    requires GoodAt(s', id) && Queues(s')
    ensures Sound(s', LoggedOut(l, s.pool.tables[id], s'.pool.tables[id], m))
  {
    OneChanged(s, s', id);
    StepMoves(s, l, s', id, GPU, m);
    SoundParts(s, l, id);
    BatchSame(s, s', id);
    TracedOut(s, l, s', id, m);
    hide *;
    StepJournalOut(l, s.pool.tables, s'.pool.tables, s.place, s'.place, id, m);
    SoundFrom(s', LoggedOut(l, s.pool.tables[id], s'.pool.tables[id], m),
      MoveCells(l.now, s.pool.tables[id], s'.pool.tables[id]));
  }

  lemma SoundFrom(s: Sys, l: Log, now: Mem)
    requires Inv(s) && Refines(s.b, s.pool.tables, s.data, now) && l.now == now && Journal(l, s.pool.tables, s.place)
    requires Traced(s, l)
    ensures Sound(s, l)
  {
  }

  lemma BatchSame(s: Sys, s': Sys, id: Id)
    requires OthersSame(s, s', id) && (InBatch(s.place, id) ==> InBatch(s'.place, id))
    ensures forall x :: InBatch(s.place, x) ==> InBatch(s'.place, x)
  {
    forall x | InBatch(s.place, x) ensures InBatch(s'.place, x) {
      assert x != id ==> SameAt(s, s', x);
    }
  }

  lemma StepJournalOut(l: Log, tables: map<Id, Table>, tables': map<Id, Table>,
                       place: map<Id, Place>, place': map<Id, Place>, id: Id, m: map<nat, nat>)
    requires Journal(l, tables, place) && Exclusive(tables) && !InBatch(place, id)
    requires id in tables && id in tables' && tables' == tables[id := tables'[id]]
    requires |tables'[id]| == |tables[id]| && NoDup(tables[id])
    requires Moved(tables, tables[id], tables'[id], GPU, m)
    requires forall x :: InBatch(place, x) ==> InBatch(place', x)
    ensures Journal(LoggedOut(l, tables[id], tables'[id], m), tables', place')
  {
    JournalOut(l, tables, place, id, tables'[id], m);
    JournalPlace(LoggedOut(l, tables[id], tables'[id], m), tables', place, place');
  }

  lemma StepMoves(s: Sys, l: Log, s': Sys, id: Id, from: Device, m: map<nat, nat>)
    requires Sound(s, l) && OthersSame(s, s', id)
    requires !InBatch(s.place, id) && !s.place[id].AtDone?
    requires id in s'.pool.tables && s'.pool.tables == s.pool.tables[id := s'.pool.tables[id]]
    requires Moved(s.pool.tables, TableOf(s.pool.tables, id), s'.pool.tables[id], from, m)
    requires s'.data[id].Cached() == s.data[id].Cached()
    requires s'.pool.tables.Keys <= s'.data.Keys
    ensures Refines(s'.b, s'.pool.tables, s'.data,
                    MoveCells(l.now, TableOf(s.pool.tables, id), s'.pool.tables[id]))
  {
    SoundParts(s, l, id);
    var u := s'.pool.tables[id];
    EnoughRows(s, id);
    CachedSame(s, s', id);
    hide Moved, MoveCells, Queues, Refines, Journal, Exclusive, AllGood, OthersSame;
    MoveRefines(s.b, s.pool.tables, s.data, l.now, id, u, from, m);
  }

  lemma EnoughRows(s: Sys, id: Id)
    requires s.b > 0 && id in s.place && id in s.data && GoodAt(s, id) && !InBatch(s.place, id) && !s.place[id].AtDone?
    ensures 0 <= s.data[id].Cached() <= |TableOf(s.pool.tables, id)| * s.b
  {
    CeilDivBounds(s.data[id].Cached(), s.b);
  }

  lemma CachedSame(s: Sys, s': Sys, id: Id)
    requires OthersSame(s, s', id) && s'.data[id].Cached() == s.data[id].Cached()
    ensures forall x :: x in s.data ==> s'.data[x].Cached() == s.data[x].Cached()
  {
    forall x | x in s.data && x != id ensures s'.data[x] == s.data[x] {
      assert SameAt(s, s', x);
    }
  }

  /** A request's planned work gets its blocks and joins the batch. */
  lemma StepIn(s: Sys, l: Log, s': Sys, id: Id, m: map<nat, nat>)
    requires Sound(s, l) && OthersSame(s, s', id)
    requires !InBatch(s.place, id) && InBatch(s'.place, id) && !s.place[id].AtDone?
    requires id in s'.pool.tables
    requires s'.pool.tables == s.pool.tables[id := s'.pool.tables[id]]
    requires Moved(s.pool.tables, TableOf(s.pool.tables, id), s'.pool.tables[id], CPU, m)
    requires s'.data[id].Cached() == s.data[id].Cached()
    requires GoodAt(s', id) && Queues(s')
    ensures Sound(s', LoggedIn(l, TableOf(s.pool.tables, id), s'.pool.tables[id], m))
  {
    OneChanged(s, s', id);
    StepMoves(s, l, s', id, CPU, m);
    SoundParts(s, l, id);
    BatchSame(s, s', id);
    TracedIn(s, l, s', id, m);
    hide *;
    StepJournalIn(l, s.pool.tables, s'.pool.tables, s.place, s'.place, id, m);
    SoundFrom(s', LoggedIn(l, TableOf(s.pool.tables, id), s'.pool.tables[id], m),
              MoveCells(l.now, TableOf(s.pool.tables, id), s'.pool.tables[id]));
  }

  lemma RowNoDup(tables: map<Id, Table>, id: Id)
    requires id in tables ==> NoDup(tables[id])
    ensures NoDup(TableOf(tables, id))
  {
  }

  lemma StepJournalIn(l: Log, tables: map<Id, Table>, tables': map<Id, Table>,
                      place: map<Id, Place>, place': map<Id, Place>, id: Id, m: map<nat, nat>)
    requires Journal(l, tables, place) && Exclusive(tables) && InBatch(place', id)
    requires id in tables' && tables' == tables[id := tables'[id]] && NoDup(TableOf(tables, id))
    requires Moved(tables, TableOf(tables, id), tables'[id], CPU, m)
    requires forall x :: InBatch(place, x) ==> InBatch(place', x)
    ensures Journal(LoggedIn(l, TableOf(tables, id), tables'[id], m), tables', place')
  {
    JournalPlace(l, tables, place, place');
    JournalIn(l, tables, place', id, tables'[id], m);
  }
}
