/** How many blocks all requests together can ask for: never more than they have tokens. */
module Demands {
  import opened Basics
  import opened Blocks
  import opened Sequences
  import opened Layouts
  import opened BlockManager
  import opened System
  import opened Memory
  import opened Steps
  import opened CpuRooms
  import opened Phases

  /** The tokens of all known requests. */
  ghost function Total(data: map<Id, SeqRec>): nat
    decreases |data|
  {
    if data == map[] then 0
    else
      var x :| x in data;
      Fewer(data, x);
      data[x].Len() + Total(data - {x})
  }

  lemma Fewer(data: map<Id, SeqRec>, x: Id)
    requires x in data
    ensures |data - {x}| == |data| - 1
  {
    assert (data - {x}).Keys == data.Keys - {x};
  }

  lemma {:induction false} TotalAt(data: map<Id, SeqRec>, x: Id)
    requires x in data
    ensures Total(data) == data[x].Len() + Total(data - {x})
    decreases |data|
  {
    var y :| y in data && Total(data) == data[y].Len() + Total(data - {y});
    if y != x {
      Fewer(data, x);
      Fewer(data, y);
      TotalAt(data - {y}, x);
      TotalAt(data - {x}, y);
      assert data - {y} - {x} == data - {x} - {y};
    }
  }

  lemma TotalNew(data: map<Id, SeqRec>, x: Id, d: SeqRec)
    requires x !in data
    ensures Total(data[x := d]) == Total(data) + d.Len() && |data[x := d]| == |data| + 1
  {
    TotalAt(data[x := d], x);
    Fewer(data[x := d], x);
    assert data[x := d] - {x} == data;
  }

  lemma TotalSet(data: map<Id, SeqRec>, x: Id, d: SeqRec)
    requires x in data
    ensures Total(data[x := d]) == Total(data) - data[x].Len() + d.Len() && |data[x := d]| == |data|
  {
    TotalAt(data[x := d], x);
    TotalAt(data, x);
    assert data[x := d] - {x} == data - {x};
    assert data[x := d].Keys == data.Keys;
  }

  /** When every request grows by one token at most, all of them grow by at most their number. */
  lemma {:induction false} TotalGrows(data: map<Id, SeqRec>, data': map<Id, SeqRec>)
    requires data'.Keys == data.Keys && forall x :: x in data ==> data'[x].Len() <= data[x].Len() + 1
    ensures Total(data') <= Total(data) + |data|
    decreases |data|
  {
    if data != map[] {
      var x :| x in data;
      Fewer(data, x);
      TotalAt(data, x);
      TotalAt(data', x);
      TotalGrows(data - {x}, data' - {x});
    } else {
      assert data' == map[];
    }
  }

  lemma {:induction false} TotalSame(data: map<Id, SeqRec>, data': map<Id, SeqRec>)
    requires data'.Keys == data.Keys && forall x :: x in data ==> data'[x].Len() == data[x].Len()
    ensures Total(data') == Total(data) && |data'| == |data|
    decreases |data|
  {
    assert |data'.Keys| == |data.Keys|;
    if data != map[] {
      var x :| x in data;
      Fewer(data, x);
      TotalAt(data, x);
      TotalAt(data', x);
      TotalSame(data - {x}, data' - {x});
    } else {
      assert data' == map[];
    }
  }

  ghost predicate ListedBy(tables: map<Id, Table>, data: map<Id, SeqRec>, b: Block) {
    exists x :: x in data && x in tables && b in tables[x]
  }

  lemma {:induction false} TableSize(t: Table, s: set<Block>)
    requires forall b :: b in s ==> b in t
    ensures |s| <= |t|
  {
    if t != [] {
      var n := |t| - 1;
      TableSize(t[..n], s - {t[n]});
      assert s <= (s - {t[n]}) + {t[n]};
      SubsetSize(s, (s - {t[n]}) + {t[n]});
    } else {
      assert s == {};
    }
  }

  ghost function Listed(s: set<Block>, tables: map<Id, Table>, x: Id): (mine: set<Block>)
    ensures mine <= s && forall b :: b in mine ==> x in tables && b in tables[x]
  {
    set b | b in s && x in tables && b in tables[x]
  }

  /** Blocks in tables that are no longer than their requests are no more than all tokens. */
  lemma {:induction false} ListedBound(s: set<Block>, tables: map<Id, Table>, data: map<Id, SeqRec>)
    requires forall b :: b in s ==> ListedBy(tables, data, b)
    requires forall x :: x in data && x in tables ==> |tables[x]| <= data[x].Len()
    ensures |s| <= Total(data)
    decreases |data|
  {
    hide ListedBy, Total;
    if data == map[] {
      NoneListed(s, tables, data);
    } else {
      var x :| x in data;
      var mine := Listed(s, tables, x);
      Fewer(data, x);
      TotalAt(data, x);
      OthersListed(s, tables, data, x, mine);
      ListedBound(s - mine, tables, data - {x});
      MineBound(tables, data, x, mine);
      SplitSize(s, mine);
    }
  }

  lemma SplitSize(s: set<Block>, part: set<Block>)
    requires part <= s
    ensures |s| == |part| + |s - part|
  {
    assert s == part + (s - part);
  }

  lemma NoneListed(s: set<Block>, tables: map<Id, Table>, data: map<Id, SeqRec>)
    requires data == map[] && forall b :: b in s ==> ListedBy(tables, data, b)
    ensures s == {}
  {
    forall b ensures b !in s {
      assert !ListedBy(tables, data, b);
    }
  }

  lemma OthersListed(s: set<Block>, tables: map<Id, Table>, data: map<Id, SeqRec>, x: Id, mine: set<Block>)
    requires forall b :: b in s ==> ListedBy(tables, data, b)
    requires mine == Listed(s, tables, x)
    ensures forall b :: b in s - mine ==> ListedBy(tables, data - {x}, b)
  {
    forall b | b in s - mine ensures ListedBy(tables, data - {x}, b) {
      var y :| y in data && y in tables && b in tables[y];
      assert y in data - {x};
    }
  }

  lemma MineBound(tables: map<Id, Table>, data: map<Id, SeqRec>, x: Id, mine: set<Block>)
    requires x in data && (x in tables ==> |tables[x]| <= data[x].Len())
    requires forall b :: b in mine ==> x in tables && b in tables[x]
    ensures |mine| <= data[x].Len()
  {
    if x in tables {
      TableSize(tables[x], mine);
    } else {
      assert mine == {};
    }
  }

  /** If the CPU has as many blocks as all requests together have tokens, there is room for every
      preserved paused request. */
  lemma TotalRoomy(s: Sys)
    requires Inv(s) && Between(s, [], []) && Total(s.data) <= |s.pool.cpu.refs|
    ensures Roomy(s.pool, s.paused)
  {
    hide AllGood, Queues, PoolOk, Exclusive;
    var kept := PreservedBlocks(s.pool.tables, s.paused);
    var used := set n | n in OwnedNumbers(s.pool, CPU) :: Block(CPU, n);
    FreePlusOwned(s.pool, CPU) by { assert Inv(s); }
    BlocksOfNumbers(OwnedNumbers(s.pool, CPU), CPU);
    forall b | b in kept + used ensures ListedBy(s.pool.tables, s.data, b) {
    }
    forall x | x in s.data && x in s.pool.tables ensures |s.pool.tables[x]| <= s.data[x].Len() {
      TableLength(s, x);
    }
    ListedBound(kept + used, s.pool.tables, s.data);
    assert kept !! used;
  }

  lemma {:induction false} BlocksOfNumbers(s: set<nat>, d: Device)
    ensures |set n | n in s :: Block(d, n)| == |s|
  {
    if s == {} {
      assert (set n | n in s :: Block(d, n)) == {};
    } else {
      var x :| x in s;
      BlocksOfNumbers(s - {x}, d);
      assert (set n | n in s :: Block(d, n)) == (set n | n in s - {x} :: Block(d, n)) + {Block(d, x)};
    }
  }

  lemma TableLength(s: Sys, x: Id)
    requires Inv(s) && Between(s, [], []) && x in s.data && x in s.pool.tables
    ensures |s.pool.tables[x]| <= s.data[x].Len()
  {
    assert GoodAt(s, x);
    if !s.place[x].AtDone? {
      CeilDivLeast(s.data[x].Cached(), s.b);
    }
  }
}
