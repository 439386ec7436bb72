/** Taking GPU blocks back from a victim list: whom it takes them from, how, and how many, victim by victim. */
module Reclaims {
  import opened Basics
  import opened Blocks
  import opened Sequences
  import opened Layouts
  import opened BlockManager
  import opened System
  import opened Memory
  import opened Steps
  import opened Preemption
  import opened CpuRooms
  import opened Victims

  /** The requests that may be restarted for CPU blocks and the number of free ones, the victims, and the GPU
      blocks still required.  Both lists are used from the back. */
  datatype Reclaim = Reclaim(discards: seq<Id>, victims: seq<Id>, required: int, free: nat)

  /** Restarting requests from the back until `need` CPU blocks are free: who is left, and how many are then free. */
  ghost function Relieved(tables: map<Id, Table>, l: seq<Id>, free: nat, need: int): (r: (seq<Id>, nat))
    ensures r.0 <= l && (r.0 != [] ==> need <= r.1) && (need <= free ==> r == (l, free))
  {
    if l == [] || need <= free then (l, free)
    else
      var n := |l| - 1;
      Relieved(tables, l[..n], free + |TableOf(tables, l[n])|, need)
  }

  /** The GPU blocks of the next victim. */
  ghost function Space(tables: map<Id, Table>, c: Reclaim): nat
    requires c.victims != []
  {
    |OnDevice(TableOf(tables, c.victims[|c.victims| - 1]), GPU)|
  }

  /** As many of them as are still required. */
  ghost function Portion(tables: map<Id, Table>, c: Reclaim): int
    requires c.victims != []
  {
    if Space(tables, c) < c.required then Space(tables, c) else c.required
  }

  ghost function Relief(tables: map<Id, Table>, c: Reclaim): (seq<Id>, nat)
    requires c.victims != []
  {
    Relieved(tables, c.discards, c.free, Portion(tables, c))
  }

  /** Only the older scheduler swaps out, and only if the CPU then has room for what is wanted. */
  ghost predicate Swaps(v: Variant, tables: map<Id, Table>, c: Reclaim)
    requires c.victims != []
  {
    v.InferCept? && Portion(tables, c) <= Relief(tables, c).1
  }

  /** One victim: its last blocks are swapped out, or it gives all its blocks back. */
  ghost function NextReclaim(v: Variant, tables: map<Id, Table>, c: Reclaim): Reclaim
    requires c.victims != [] && c.required > 0
  {
    var n, num, space, left := |c.victims| - 1, Portion(tables, c), Space(tables, c), Relief(tables, c);
    if Swaps(v, tables, c) then
      Reclaim(left.0, if num == space then c.victims[..n] else c.victims, c.required - num, left.1 - num)
    else
      Reclaim(left.0, c.victims[..n], c.required - space, left.1 + |OnDevice(TableOf(tables, c.victims[n]), CPU)|)
  }

  ghost predicate Finished(c: Reclaim) {
    c.required <= 0 || c.victims == []
  }

  ghost function ReclaimAfter(v: Variant, tables: map<Id, Table>, c: Reclaim, n: nat): Reclaim {
    if n == 0 then c
    else
      var d := ReclaimAfter(v, tables, c, n - 1);
      if Finished(d) then d else NextReclaim(v, tables, d)
  }

  /** The blocks swapped out at the first `n` victims. */
  ghost function SwappedBy(v: Variant, tables: map<Id, Table>, c: Reclaim, n: nat): int {
    if n == 0 then 0
    else
      var d := ReclaimAfter(v, tables, c, n - 1);
      SwappedBy(v, tables, c, n - 1) + if !Finished(d) && Swaps(v, tables, d) then Portion(tables, d) else 0
  }

  /** The last `num` GPU blocks of `x` went to the CPU, and everything else of it stayed. */
  ghost predicate SwappedBack(s: Sys, s': Sys, x: Id, num: nat) {
    && x in s.data && x in s'.data && s'.data[x].Cached() == s.data[x].Cached() && s'.data[x].SameTokens(s.data[x])
    && x in s.pool.tables && x in s'.pool.tables
    && var t, u, g := s.pool.tables[x], s'.pool.tables[x], |OnDevice(s.pool.tables[x], GPU)|;
    && |u| == |t| && num <= g <= |t| && GpuPrefix(t, g) && GpuPrefix(u, g - num)
    && u[..g - num] == t[..g - num] && u[g..] == t[g..]
  }

  ghost predicate GaveAll(s': Sys, x: Id) {
    x in s'.data && s'.data[x].Cached() == 0 && x !in s'.pool.tables
  }

  /** What the turn of the last victim of `c` did to it. */
  ghost predicate Reclaimed(v: Variant, s: Sys, s': Sys, c: Reclaim) {
    !Finished(c) && var x := c.victims[|c.victims| - 1];
    if Swaps(v, s.pool.tables, c) then Portion(s.pool.tables, c) > 0 && SwappedBack(s, s', x, Portion(s.pool.tables, c))
    else GaveAll(s', x)
  }

  /** The victims of the first `n` turns are as their turns left them. */
  ghost predicate AllReclaimed(v: Variant, s: Sys, s': Sys, c: Reclaim, n: nat) {
    forall k: nat {:trigger ReclaimAfter(v, s.pool.tables, c, k)} :: k < n ==>
      Reclaimed(v, s, s', ReclaimAfter(v, s.pool.tables, c, k))
  }

  /** Only the requests in `gone` and `x` were touched. */
  ghost predicate OnlyTouched(s: Sys, s': Sys, gone: seq<Id>, x: Id) {
    && s.data.Keys == s.place.Keys == s'.place.Keys == s'.data.Keys
    && s.pool.tables.Keys <= s.place.Keys && s'.pool.tables.Keys <= s'.place.Keys
    && forall y {:trigger SameAt(s, s', y)} :: y in s.place && y != x && y !in gone ==> SameAt(s, s', y)
  }

  // ---- The CPU side

  lemma {:induction false} RelievedSame(tables: map<Id, Table>, tables': map<Id, Table>, l: seq<Id>, free: nat,
                                        need: int)
    requires forall x :: x in l ==> TableOf(tables', x) == TableOf(tables, x)
    ensures Relieved(tables', l, free, need) == Relieved(tables, l, free, need)
    decreases l
  {
    hide TableOf;
    if l != [] && free < need {
      var n := |l| - 1;
      assert l[n] in l && forall x :: x in l[..n] ==> x in l;
      RelievedSame(tables, tables', l[..n], free + |TableOf(tables, l[n])|, need);
    }
  }

  lemma RelievedNext(tables: map<Id, Table>, l: seq<Id>, free: nat, need: int)
    requires l != [] && free < need
    ensures Relieved(tables, l, free, need) ==
      Relieved(tables, l[..|l| - 1], free + |TableOf(tables, l[|l| - 1])|, need)
  {
  }

  lemma RelievedDone(tables: map<Id, Table>, l: seq<Id>, free: nat, need: int)
    requires l == [] || need <= free
    ensures Relieved(tables, l, free, need) == (l, free)
  {
  }

  // ---- Swapping a victim's last blocks out

  /** What moving the last GPU blocks does to the table, and how many copies it asks for. */
  lemma OfferedBack(s: Sys, l: Log, s1: Sys, l1: Log, v: Id, p: Place, num: nat, m: map<nat, nat>)
    requires Sound(s, l) && Victim(s, v, p) && num >= 1 && OfferStep(s, l, s1, l1, v, num, m)
    ensures SwappedBack(s, s1, v, num) && |l1.outs| == |l.outs| + num
  {
    hide *;
    VictimFacts(s, l, v, p);
    OfferParts(s, l, s1, l1, v, num, m);
    OfferedFacts(s, l, s1, l1, v, p, num, m);
    var t, u := s.pool.tables[v], s1.pool.tables[v];
    var g := |OnDevice(t, GPU)|;
    OfferedPrefix(s, s1, v, num);
    PrefixMoved(s.pool.tables, t, u, m, g, num);
    CopiesCount(s.pool.tables, t, u, m, g, num);
    OfferedFresh(s, l, v, p, u, m);
    LoggedFields(l, t, u, m);
    UnionSize(l.outs, m);
    SwappedBackFrom(s, s1, v, num);
  }

  lemma UnionSize(a: map<nat, nat>, b: map<nat, nat>)
    requires a.Keys !! b.Keys
    ensures |a + b| == |a| + |b|
  {
    assert (a + b).Keys == a.Keys + b.Keys;
    assert |(a + b).Keys| == |a.Keys| + |b.Keys|;
  }

  lemma OfferParts(s: Sys, l: Log, s1: Sys, l1: Log, v: Id, num: nat, m: map<nat, nat>)
    requires OfferStep(s, l, s1, l1, v, num, m)
    ensures v in s.data && v in s1.data && v in s.pool.tables && v in s1.pool.tables && s.b > 0
    ensures |s1.pool.tables[v]| == |s.pool.tables[v]| && l1 == LoggedOut(l, s.pool.tables[v], s1.pool.tables[v], m)
    ensures Moved(s.pool.tables, s.pool.tables[v], s1.pool.tables[v], GPU, m)
    ensures GpuPrefix(s1.pool.tables[v], |s1.pool.tables[v]| - s1.data[v].swapLength)
    ensures s1.data[v].swapLength == s.data[v].swapLength + num
    ensures s1.data[v].Cached() == s.data[v].Cached() && s1.data[v].SameTokens(s.data[v])
  {
    hide Moved, PoolOk, Exclusive, LoggedOut, SameArenas, GpuPrefix, CeilDiv;
  }

  lemma OfferedPrefix(s: Sys, s1: Sys, v: Id, num: nat)
    requires v in s.data && v in s1.data && v in s.pool.tables && v in s1.pool.tables
    requires |s1.pool.tables[v]| == |s.pool.tables[v]| && s1.data[v].swapLength == s.data[v].swapLength + num
    requires GpuPrefix(s1.pool.tables[v], |s1.pool.tables[v]| - s1.data[v].swapLength)
    requires |OnDevice(s.pool.tables[v], GPU)| == |s.pool.tables[v]| - s.data[v].swapLength
    requires 0 <= s.data[v].swapLength
    ensures var g := |OnDevice(s.pool.tables[v], GPU)|;
      && num <= g <= |s.pool.tables[v]| && g == |s.pool.tables[v]| - s.data[v].swapLength
      && GpuPrefix(s1.pool.tables[v], g - num)
  {
    hide OnDevice;
  }

  lemma SwappedBackFrom(s: Sys, s1: Sys, v: Id, num: nat)
    requires v in s.data && v in s1.data && v in s.pool.tables && v in s1.pool.tables
    requires s1.data[v].Cached() == s.data[v].Cached() && s1.data[v].SameTokens(s.data[v])
    requires var t, u, g := s.pool.tables[v], s1.pool.tables[v], |OnDevice(s.pool.tables[v], GPU)|;
      && |u| == |t| && num <= g <= |t| && GpuPrefix(t, g) && GpuPrefix(u, g - num)
      && u[..g - num] == t[..g - num] && u[g..] == t[g..]
    ensures SwappedBack(s, s1, v, num)
  {
    hide OnDevice, GpuPrefix;
  }

  lemma LoggedFields(l: Log, t: Table, u: Table, m: map<nat, nat>)
    ensures LoggedOut(l, t, u, m).outs == l.outs + m
  {
  }

  lemma OfferedFresh(s: Sys, l: Log, v: Id, p: Place, u: Table, m: map<nat, nat>)
    requires Sound(s, l) && Victim(s, v, p) && v in s.pool.tables && Moved(s.pool.tables, s.pool.tables[v], u, GPU, m)
    ensures l.outs.Keys !! m.Keys
  {
    VictimFacts(s, l, v, p);
    NewSources(l, s.pool.tables, s.place, v, u, m);
  }

  lemma PrefixMoved(tables: map<Id, Table>, t: Table, u: Table, m: map<nat, nat>, g: nat, num: nat)
    requires Moved(tables, t, u, GPU, m) && |u| == |t| && num <= g && GpuPrefix(t, g) && GpuPrefix(u, g - num)
    ensures u[..g - num] == t[..g - num] && u[g..] == t[g..]
    ensures forall k :: 0 <= k < |t| ==> (g - num <= k < g <==> u[k] != t[k])
  {
    hide Unowned;
    forall k | 0 <= k < |t| ensures g - num <= k < g <==> u[k] != t[k] {
      assert u[k] == t[k] || MovedEntry(tables, t[k], u[k], GPU, m);
    }
  }

  /** The blocks that were moved are those that the copies come from. */
  lemma MovedPart(tables: map<Id, Table>, t: Table, u: Table, m: map<nat, nat>, i: nat, j: nat, part: Table)
    requires Moved(tables, t, u, GPU, m) && |u| == |t| && i <= j <= |t| && part == t[i..j]
    requires forall k :: 0 <= k < |t| ==> (i <= k < j <==> u[k] != t[k])
    ensures forall k :: 0 <= k < |part| ==> part[k].number in m && part[k] == Block(GPU, part[k].number)
    ensures forall n :: n in m ==> exists k :: 0 <= k < |part| && part[k] == Block(GPU, n)
  {
    hide Unowned;
    forall k | 0 <= k < |part| ensures part[k].number in m && part[k] == Block(GPU, part[k].number) {
      assert part[k] == t[i + k] && MovedEntry(tables, t[i + k], u[i + k], GPU, m);
    }
    forall n | n in m ensures exists k :: 0 <= k < |part| && part[k] == Block(GPU, n) {
      var k :| 0 <= k < |t| && t[k] == Block(GPU, n) && u[k] != t[k];
      assert part[k - i] == t[k];
    }
  }

  lemma CopiesCount(tables: map<Id, Table>, t: Table, u: Table, m: map<nat, nat>, g: nat, num: nat)
    requires Moved(tables, t, u, GPU, m) && |u| == |t| && num <= g && GpuPrefix(t, g) && GpuPrefix(u, g - num)
    requires NoDup(t)
    ensures |m| == num
  {
    hide Moved, GpuPrefix, NoDup;
    PrefixMoved(tables, t, u, m, g, num);
    PrefixSize(t, g);
    var part := t[g - num..g];
    SliceNoDup(t, g - num, g);
    MovedPart(tables, t, u, m, g - num, g, part);
    NumbersCount(part);
    SameNumbers(part, m);
    assert |m| == |m.Keys|;
  }

  lemma SameNumbers(part: Table, m: map<nat, nat>)
    requires forall k :: 0 <= k < |part| ==> part[k].number in m && part[k] == Block(GPU, part[k].number)
    requires forall n :: n in m ==> exists k :: 0 <= k < |part| && part[k] == Block(GPU, n)
    ensures m.Keys == set b | b in part :: b.number
  {
    forall n ensures n in m.Keys <==> n in (set b | b in part :: b.number) {
      if n in m.Keys {
        var k :| 0 <= k < |part| && part[k] == Block(GPU, n);
        assert part[k] in part;
      }
    }
  }

  lemma PrefixSize(t: Table, g: int)
    requires GpuPrefix(t, g)
    ensures g <= |t| && forall k :: 0 <= k < g ==> t[k].device.GPU?
  {
  }

  lemma SliceNoDup(t: Table, i: nat, j: nat)
    requires NoDup(t) && i <= j <= |t|
    ensures NoDup(t[i..j])
  {
  }

  lemma {:induction false} NumbersCount(t: Table)
    requires NoDup(t) && forall k :: 0 <= k < |t| ==> t[k].device.GPU?
    ensures |(set b | b in t :: b.number)| == |t|
  {
    if t != [] {
      var n := |t| - 1;
      NumbersCount(t[..n]);
      var all, less := set b | b in t :: b.number, set b | b in t[..n] :: b.number;
      assert t == t[..n] + [t[n]];
      assert t[n].number !in less by {
        forall i | 0 <= i < n ensures t[i].number != t[n].number {
          assert t[i] != t[n];
        }
      }
      assert all == less + {t[n].number};
    }
  }

  // ---- One victim, and the ones before it

  lemma NextSame(v: Variant, tables: map<Id, Table>, tables': map<Id, Table>, c: Reclaim)
    requires c.victims != [] && c.required > 0
    requires TableOf(tables', c.victims[|c.victims| - 1]) == TableOf(tables, c.victims[|c.victims| - 1])
    requires forall x :: x in c.discards ==> TableOf(tables', x) == TableOf(tables, x)
    ensures NextReclaim(v, tables', c) == NextReclaim(v, tables, c) && Portion(tables', c) == Portion(tables, c)
    ensures Swaps(v, tables', c) <==> Swaps(v, tables, c)
  {
    hide TableOf, Relieved, OnDevice;
    RelievedSame(tables, tables', c.discards, c.free, Portion(tables, c));
  }

  /** Requests still to come, as victims or to be restarted, have the tables that they started with. */
  ghost predicate Awaited(s0: Sys, s: Sys, c: Reclaim) {
    && (forall x :: x in c.discards ==> TableOf(s.pool.tables, x) == TableOf(s0.pool.tables, x))
    && (forall x :: x in c.victims ==> TableOf(s.pool.tables, x) == TableOf(s0.pool.tables, x))
    && (forall x :: x in c.victims ==> Lookup(s.data, x) == Lookup(s0.data, x))
  }

  ghost predicate Separate(c: Reclaim) {
    NoDup(c.victims) && NoDup(c.discards) && forall x :: x in c.victims ==> x !in c.discards
  }

  /** Where the loop over the victims stands, `n` turns after `c0`. */
  ghost predicate Reclaiming(v: Variant, s0: Sys, s: Sys, c0: Reclaim, c: Reclaim, n: nat) {
    && c == ReclaimAfter(v, s0.pool.tables, c0, n) && Separate(c0)
    && (!Finished(c) ==> Awaited(s0, s, c)) && AllReclaimed(v, s0, s, c0, n)
    && (forall x :: x in c0.victims ==> x in s0.place && x in s.place)
  }

  lemma ReclaimingStart(v: Variant, s: Sys, c: Reclaim)
    requires Separate(c) && forall x :: x in c.victims ==> x in s.place
    ensures Reclaiming(v, s, s, c, c, 0)
  {
  }

  lemma NextShrinks(v: Variant, tables: map<Id, Table>, c: Reclaim)
    requires c.victims != [] && c.required > 0
    ensures var d := NextReclaim(v, tables, c);
      && d.discards <= c.discards && d.victims <= c.victims
      && (!Finished(d) ==> d.victims == c.victims[..|c.victims| - 1])
  {
    hide OnDevice, TableOf;
  }

  /** Both lists only lose entries at the back, and a victim has at most one turn. */
  lemma {:induction false} ReclaimShrinks(v: Variant, tables: map<Id, Table>, c: Reclaim, k: nat, n: nat)
    requires k <= n
    ensures var d, e := ReclaimAfter(v, tables, c, k), ReclaimAfter(v, tables, c, n);
      && e.discards <= d.discards && e.victims <= d.victims
      && (k < n && !Finished(e) ==> d.victims != [] && e.victims <= d.victims[..|d.victims| - 1])
    decreases n
  {
    hide NextReclaim;
    if k < n {
      ReclaimShrinks(v, tables, c, k, n - 1);
      if !Finished(ReclaimAfter(v, tables, c, n - 1)) {
        NextShrinks(v, tables, ReclaimAfter(v, tables, c, n - 1));
      }
    }
  }

  lemma ReclaimingNext(v: Variant, s0: Sys, s: Sys, s': Sys, c0: Reclaim, c: Reclaim, c': Reclaim, n: nat,
                       nSwap: int)
    requires Reclaiming(v, s0, s, c0, c, n) && ReclaimStep(v, s, s', c, c', nSwap)
    ensures Reclaiming(v, s0, s', c0, c', n + 1)
    ensures SwappedBy(v, s0.pool.tables, c0, n + 1) == SwappedBy(v, s0.pool.tables, c0, n) + nSwap
  {
    hide Reclaimed, NextReclaim, Swaps, Portion, OnlyTouched, TableOf, OnDevice, SwappedBack;
    var tables, last := s0.pool.tables, |c.victims| - 1;
    assert c.victims[last] in c.victims;
    NextSame(v, tables, s.pool.tables, c);
    ReclaimShrinks(v, tables, c0, 0, n);
    ReclaimShrinks(v, tables, c0, n, n + 1);
    forall k: nat | k < n + 1 ensures Reclaimed(v, s0, s', ReclaimAfter(v, tables, c0, k)) {
      if k < n {
        ReclaimShrinks(v, tables, c0, 0, k);
        ReclaimShrinks(v, tables, c0, k, n);
        assert Reclaimed(v, s0, s, ReclaimAfter(v, tables, c0, k));
        EarlierStays(v, s0, s, s', c0, c, c', ReclaimAfter(v, tables, c0, k));
      } else {
        ReclaimedSince(v, s0, s, s', c);
      }
    }
    if !Finished(c') {
      AwaitedNext(s0, s, s', c0, c, c');
    }
    TouchedPlaces(s, s', c.discards[|c'.discards|..], c.victims[last]);
  }

  lemma TouchedPlaces(s: Sys, s': Sys, gone: seq<Id>, x: Id)
    requires OnlyTouched(s, s', gone, x)
    ensures s'.place.Keys == s.place.Keys
  {
  }

  lemma EarlierStays(v: Variant, s0: Sys, s: Sys, s': Sys, c0: Reclaim, c: Reclaim, c': Reclaim, d: Reclaim)
    requires Reclaimed(v, s0, s, d) && Separate(c0) && d.victims <= c0.victims && c.discards <= c0.discards
    requires c.victims != [] && d.victims != [] && c.victims <= d.victims[..|d.victims| - 1]
    requires c'.discards <= c.discards && forall x :: x in c0.victims ==> x in s.place
    requires OnlyTouched(s, s', c.discards[|c'.discards|..], c.victims[|c.victims| - 1])
    ensures Reclaimed(v, s0, s', d)
  {
    hide Swaps, Portion, OnDevice;
    var x, y, gone := d.victims[|d.victims| - 1], c.victims[|c.victims| - 1], c.discards[|c'.discards|..];
    assert x == c0.victims[|d.victims| - 1] && y == c0.victims[|c.victims| - 1] && x in c0.victims;
    assert forall z :: z in gone ==> z in c0.discards;
    assert SameAt(s, s', x);
  }

  lemma ReclaimedSince(v: Variant, s0: Sys, s: Sys, s': Sys, c: Reclaim)
    requires Reclaimed(v, s, s', c) && Awaited(s0, s, c)
    ensures Reclaimed(v, s0, s', c)
  {
    hide NextReclaim, OnDevice, Relieved;
    var x := c.victims[|c.victims| - 1];
    assert x in c.victims;
    NextSame(v, s0.pool.tables, s.pool.tables, c);
    if Swaps(v, s.pool.tables, c) {
      SwappedSince(s0, s, s', x, Portion(s.pool.tables, c));
    }
  }

  lemma SwappedSince(s0: Sys, s: Sys, s': Sys, x: Id, num: nat)
    requires SwappedBack(s, s', x, num) && TableOf(s.pool.tables, x) == TableOf(s0.pool.tables, x)
    requires Lookup(s.data, x) == Lookup(s0.data, x) && num > 0
    ensures SwappedBack(s0, s', x, num)
  {
  }

  lemma AwaitedNext(s0: Sys, s: Sys, s': Sys, c0: Reclaim, c: Reclaim, c': Reclaim)
    requires Awaited(s0, s, c) && Separate(c0) && c.victims <= c0.victims && c.discards <= c0.discards
    requires c.victims != [] && c'.victims <= c.victims[..|c.victims| - 1] && c'.discards <= c.discards
    requires forall x :: x in c0.victims ==> x in s.place
    requires OnlyTouched(s, s', c.discards[|c'.discards|..], c.victims[|c.victims| - 1])
    ensures Awaited(s0, s', c')
  {
    hide TableOf;
    var y, gone := c.victims[|c.victims| - 1], c.discards[|c'.discards|..];
    forall x | x in c'.victims ensures TableOf(s'.pool.tables, x) == TableOf(s0.pool.tables, x)
      && Lookup(s'.data, x) == Lookup(s0.data, x)
    {
      var i :| 0 <= i < |c'.victims| && c'.victims[i] == x;
      assert x == c0.victims[i] && y == c0.victims[|c.victims| - 1] && x in c0.victims && x in c.victims;
      assert forall z :: z in gone ==> z in c0.discards;
      TouchedElsewhere(s, s', gone, y, x);
    }
    forall x | x in c'.discards ensures TableOf(s'.pool.tables, x) == TableOf(s0.pool.tables, x) {
      var i :| 0 <= i < |c'.discards| && c'.discards[i] == x;
      assert x == c0.discards[i] && x in c0.discards && y == c0.victims[|c.victims| - 1] && y in c0.victims;
      forall j | 0 <= j < |gone| ensures gone[j] != x {
        assert gone[j] == c0.discards[|c'.discards| + j];
      }
      assert x in c.discards;
      TouchedElsewhere(s, s', gone, y, x);
    }
  }

  lemma TouchedElsewhere(s: Sys, s': Sys, gone: seq<Id>, y: Id, x: Id)
    requires OnlyTouched(s, s', gone, y) && x != y && x !in gone
    ensures TableOf(s'.pool.tables, x) == TableOf(s.pool.tables, x) && Lookup(s'.data, x) == Lookup(s.data, x)
  {
    if x in s.place {
      assert SameAt(s, s', x);
    }
  }

  /** What `PassiveDiscard` did with a victim list, in `n` turns: `required` GPU blocks became free, or no victim
      is left; every victim of a turn is as that turn leaves it, and `nSwap` blocks were swapped out.  `bySwap` are
      the paused requests on the CPU, in the order in which they may be restarted. */
  ghost predicate ReclaimedFrom(v: Variant, s: Sys, s': Sys, victims: seq<Id>, required: int, rest: seq<Id>,
                                nSwap: int, bySwap: seq<Id>, n: nat)
  {
    var c := Reclaim(s.swapped + bySwap, victims, required, |s.pool.cpu.free|);
    var d := ReclaimAfter(v, s.pool.tables, c, n);
    && NoDup(bySwap) && (forall x :: x in bySwap <==> x in s.paused && s.paused[x].Swap?)
    && Finished(d) && rest == d.victims && |s'.pool.cpu.free| == d.free
    && |s'.pool.gpu.free| == |s.pool.gpu.free| + required - d.required
    && AllReclaimed(v, s, s', c, n) && nSwap == SwappedBy(v, s.pool.tables, c, n)
  }

  /** In particular: in the older scheduler a victim gives all its blocks back only where the CPU has no room for
      what is wanted of it, and otherwise keeps its cached tokens; the newer one never swaps out. */
  lemma ReclaimLaw(v: Variant, s: Sys, s': Sys, victims: seq<Id>, required: int, rest: seq<Id>, nSwap: int,
                   bySwap: seq<Id>, n: nat, k: nat)
    requires ReclaimedFrom(v, s, s', victims, required, rest, nSwap, bySwap, n) && k < n
    ensures var c0 := Reclaim(s.swapped + bySwap, victims, required, |s.pool.cpu.free|);
      var c := ReclaimAfter(v, s.pool.tables, c0, k);
      c.victims != [] && c.required > 0 && var x := c.victims[|c.victims| - 1];
      var gpu := |OnDevice(TableOf(s.pool.tables, x), GPU)|;
      var num := if gpu < c.required then gpu else c.required;
      if v.InferCept? && num <= Relieved(s.pool.tables, c.discards, c.free, num).1
      then num > 0 && SwappedBack(s, s', x, num)
      else x in s'.data && s'.data[x].Cached() == 0 && x !in s'.pool.tables
  {
    hide SwappedBack, Relieved, OnDevice, ReclaimAfter;
    var c0 := Reclaim(s.swapped + bySwap, victims, required, |s.pool.cpu.free|);
    assert Reclaimed(v, s, s', ReclaimAfter(v, s.pool.tables, c0, k));
  }

  lemma SeparateFrom(s: Sys, l: Log, victims: seq<Id>, discards: seq<Id>, p: Place, required: int, free: nat)
    requires Sound(s, l) && VictimList(s, victims, p) && Discards(s, discards)
    ensures Separate(Reclaim(discards, victims, required, free)) && forall x :: x in victims ==> x in s.place
  {
    hide Sound, Victim;
    DiscardsOnce(s, discards);
    forall x | x in victims ensures x !in discards && x in s.place {
      assert Victim(s, x, p);
      VictimNotDiscarded(s, l, x, p, discards);
      VictimBrief(s, x, p);
    }
  }

  /** Retiring a victim changes neither its table nor what is cached of it. */
  lemma RetiredBack(s: Sys, s1: Sys, s': Sys, v: Id, num: nat, onRunning: bool)
    requires SwappedBack(s, s1, v, num) && RetireStep(s1, s', v, onRunning) && PoolOk(s1.pool)
    ensures SwappedBack(s, s', v, num) && |s'.pool.cpu.free| == |s1.pool.cpu.free|
  {
    hide PoolOk, SameArenas, OnDevice, GpuPrefix;
    SameFree(s1.pool, s'.pool);
  }

  lemma GaveAllIs(s: Sys, x: Id)
    requires x in s.data && s.data[x].Cached() == 0 && x !in s.pool.tables
    ensures GaveAll(s, x)
  {
  }

  /** What `TakeBlocks` does with a victim, once room was made on the CPU: in the older scheduler its last `num`
      GPU blocks are swapped out if the CPU has room for them; otherwise it gives all its blocks back. */
  ghost predicate TookBack(v: Variant, s: Sys, s': Sys, x: Id, num: int, gone: bool, nSwap: int, freed: int) {
    x in s.pool.tables && num >= 0 &&
    if v.InferCept? && num <= |s.pool.cpu.free| then
      && SwappedBack(s, s', x, num) && |s'.pool.cpu.free| == |s.pool.cpu.free| - num
      && nSwap == freed == num && (gone <==> num == |OnDevice(s.pool.tables[x], GPU)|)
    else
      && GaveAll(s', x) && |s'.pool.cpu.free| == |s.pool.cpu.free| + |OnDevice(s.pool.tables[x], CPU)|
      && nSwap == 0 && freed == |OnDevice(s.pool.tables[x], GPU)| && gone
  }

  lemma TookSwapped(v: Variant, s: Sys, s': Sys, x: Id, num: nat, gone: bool)
    requires v.InferCept? && num <= |s.pool.cpu.free| && x in s.pool.tables && SwappedBack(s, s', x, num)
    requires |s'.pool.cpu.free| == |s.pool.cpu.free| - num
    requires gone <==> num == |OnDevice(s.pool.tables[x], GPU)|
    ensures TookBack(v, s, s', x, num, gone, num, num)
  {
    hide SwappedBack, OnDevice;
  }

  lemma TookDropped(v: Variant, s: Sys, s': Sys, x: Id, num: nat)
    requires !(v.InferCept? && num <= |s.pool.cpu.free|) && x in s.pool.tables && GaveAll(s', x)
    requires |s'.pool.cpu.free| == |s.pool.cpu.free| + |OnDevice(s.pool.tables[x], CPU)|
    ensures TookBack(v, s, s', x, num, true, 0, |OnDevice(s.pool.tables[x], GPU)|)
  {
    hide GaveAll, OnDevice;
  }

  /** The turn of one victim, from `c` to `c'`, with `nSwap` blocks swapped out. */
  ghost predicate ReclaimStep(v: Variant, s: Sys, s': Sys, c: Reclaim, c': Reclaim, nSwap: int) {
    && !Finished(c) && c' == NextReclaim(v, s.pool.tables, c) && Reclaimed(v, s, s', c)
    && c'.discards <= c.discards
    && OnlyTouched(s, s', c.discards[|c'.discards|..], c.victims[|c.victims| - 1])
    && nSwap == if Swaps(v, s.pool.tables, c) then Portion(s.pool.tables, c) else 0
  }

  /** One victim: room is made on the CPU first. */
  lemma ReclaimedOne(v: Variant, s: Sys, s1: Sys, s2: Sys, c: Reclaim, x: Id, discards: seq<Id>, num: int, gone: bool,
                     nSwap: int, freed: int)
    requires c.victims != [] && c.required > 0 && x == c.victims[|c.victims| - 1]
    requires x in s.place && x !in c.discards && x in s.pool.tables && num == Portion(s.pool.tables, c) > 0
    requires discards <= c.discards && OnlyLost(s, s1, c.discards[|discards|..]) && OthersSame(s1, s2, x)
    requires s.pool.tables.Keys <= s.place.Keys && s2.pool.tables.Keys <= s2.place.Keys
    requires (discards, |s1.pool.cpu.free|) == Relieved(s.pool.tables, c.discards, c.free, num)
    requires x in s1.pool.tables && s1.pool.tables[x] == s.pool.tables[x]
    requires TookBack(v, s1, s2, x, num, gone, nSwap, freed)
    ensures ReclaimStep(v, s, s2, c, Reclaim(discards, if gone then c.victims[..|c.victims| - 1] else c.victims,
      c.required - freed, |s2.pool.cpu.free|), nSwap)
  {
    hide OnDevice, Relieved, PoolOk, Exclusive, NextReclaim, Reclaimed, TookBack, Swaps, OnlyTouched, OnlyLost, Portion;
    hide OthersSame;
    TouchedBoth(s, s1, s2, c.discards[|discards|..], x);
    NextIs(v, s, s1, s2, c, x, discards, num, gone, nSwap, freed);
    ReclaimedBy(v, s, s1, s2, c, x, discards, num, gone, nSwap, freed);
  }

  lemma NextIs(v: Variant, s: Sys, s1: Sys, s2: Sys, c: Reclaim, x: Id, discards: seq<Id>, num: int, gone: bool,
               nSwap: int, freed: int)
    requires c.victims != [] && c.required > 0 && x == c.victims[|c.victims| - 1]
    requires x in s.pool.tables && num == Portion(s.pool.tables, c) && x in s1.pool.tables
    requires (discards, |s1.pool.cpu.free|) == Relieved(s.pool.tables, c.discards, c.free, num)
    requires s1.pool.tables[x] == s.pool.tables[x] && TookBack(v, s1, s2, x, num, gone, nSwap, freed)
    ensures NextReclaim(v, s.pool.tables, c) == Reclaim(discards,
      if gone then c.victims[..|c.victims| - 1] else c.victims, c.required - freed, |s2.pool.cpu.free|)
    ensures Swaps(v, s.pool.tables, c) <==> v.InferCept? && num <= |s1.pool.cpu.free|
    ensures nSwap == if Swaps(v, s.pool.tables, c) then num else 0
  {
    hide OnDevice, Relieved, SwappedBack, GaveAll;
    assert TableOf(s.pool.tables, x) == s.pool.tables[x];
  }

  lemma ReclaimedBy(v: Variant, s: Sys, s1: Sys, s2: Sys, c: Reclaim, x: Id, discards: seq<Id>, num: int, gone: bool,
                    nSwap: int, freed: int)
    requires c.victims != [] && c.required > 0 && x == c.victims[|c.victims| - 1]
    requires x in s.place && x !in c.discards && x in s.pool.tables && num == Portion(s.pool.tables, c) > 0
    requires discards <= c.discards && OnlyLost(s, s1, c.discards[|discards|..]) && x in s1.pool.tables
    requires s1.pool.tables[x] == s.pool.tables[x] && TookBack(v, s1, s2, x, num, gone, nSwap, freed)
    requires Swaps(v, s.pool.tables, c) <==> v.InferCept? && num <= |s1.pool.cpu.free|
    ensures Reclaimed(v, s, s2, c)
  {
    hide OnDevice, Relieved, SwappedBack, GaveAll, Swaps, Portion;
    var lost := c.discards[|discards|..];
    assert forall y :: y in lost ==> y in c.discards;
    assert LostAt(s, s1, lost, x);
    if v.InferCept? && num <= |s1.pool.cpu.free| {
      SwappedSince(s, s1, s2, x, num);
    }
  }

  lemma TouchedBoth(s: Sys, s1: Sys, s2: Sys, gone: seq<Id>, x: Id)
    requires OnlyLost(s, s1, gone) && OthersSame(s1, s2, x)
    requires s.pool.tables.Keys <= s.place.Keys && s2.pool.tables.Keys <= s2.place.Keys
    ensures OnlyTouched(s, s2, gone, x)
  {
    hide PoolOk, Exclusive;
    forall y | y in s.place && y != x && y !in gone ensures SameAt(s, s2, y) {
      assert LostAt(s, s1, gone, y);
      assert SameAt(s1, s2, y);
    }
  }

  lemma PortionIs(tables: map<Id, Table>, c: Reclaim, num: int)
    requires c.victims != [] && c.victims[|c.victims| - 1] in tables
    requires var g := |OnDevice(tables[c.victims[|c.victims| - 1]], GPU)|;
      num == if g < c.required then g else c.required
    ensures num == Portion(tables, c)
  {
    hide OnDevice;
  }

  lemma LastApart(s: Sys, l: Log, v: Id, p: Place, discards: seq<Id>)
    requires Sound(s, l) && Victim(s, v, p) && Discards(s, discards)
    ensures v !in discards && v in s.place && s.pool.tables.Keys <= s.place.Keys
  {
    hide Sound;
    VictimNotDiscarded(s, l, v, p, discards);
    VictimBrief(s, v, p);
    SoundKeys(s, l);
  }

  lemma DroppedOthers(s: Sys, s': Sys, v: Id, p: Place)
    requires Dropped(s, s', v, p)
    ensures OthersSame(s, s', v)
  {
  }

  lemma OfferedOthers(s: Sys, s': Sys, v: Id, p: Place, num: nat, full: bool)
    requires Offered(s, s', v, p, num, full)
    ensures OthersSame(s, s', v)
  {
  }

  lemma CountIs(v: Variant, tables: map<Id, Table>, c: Reclaim)
    ensures SwappedBy(v, tables, c, 0) == 0
  {
  }

  lemma ReclaimingEnd(v: Variant, s0: Sys, s: Sys, c: Reclaim, d: Reclaim, n: nat, required: int, nSwap: int,
                      bySwap: seq<Id>)
    requires Reclaiming(v, s0, s, c, d, n) && (d.required <= 0 || d.victims == [])
    requires c == Reclaim(s0.swapped + bySwap, c.victims, required, |s0.pool.cpu.free|)
    requires NoDup(bySwap) && forall x :: x in bySwap <==> x in s0.paused && s0.paused[x].Swap?
    requires d.free == |s.pool.cpu.free| && |s.pool.gpu.free| == |s0.pool.gpu.free| + required - d.required
    requires nSwap == SwappedBy(v, s0.pool.tables, c, n)
    ensures ReclaimedFrom(v, s0, s, c.victims, required, d.victims, nSwap, bySwap, n)
  {
  }
}
