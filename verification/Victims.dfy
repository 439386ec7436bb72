/** Which preserved paused requests give their GPU blocks up in an iteration, and what becomes of them. */
module Victims {
  import opened Basics
  import opened Blocks
  import opened Layouts
  import opened BlockManager
  import opened System
  import opened Steps
  import opened Preemption

  /** `V2` never swaps out while it makes room; `InferCept` does, partially. */
  datatype Variant = V2 | InferCept

  /** What keeping a paused request's blocks, or giving them up by `strategy`, is estimated to waste.
      The source computes these in floating point from measured coefficients. */
  datatype Estimate = Estimate(waste: real, preserve: real, strategy: Mode)

  /** Whether a paused request may be given up: in the older scheduler, if that wastes less than keeping it. */
  predicate Candidate(v: Variant, m: Mode, e: Estimate) {
    m.Preserve? && (v.V2? || e.waste < e.preserve)
  }

  /** A candidate that no other candidate exceeds in waste.  The source's maximum starts at -1. */
  ghost predicate Worst(v: Variant, paused: map<Id, Mode>, estimate: Id -> Estimate, x: Id) {
    && x in paused && Candidate(v, paused[x], estimate(x)) && estimate(x).waste >= -1.0
    && forall y :: y in paused && Candidate(v, paused[y], estimate(y)) ==> estimate(y).waste <= estimate(x).waste
  }

  /** The older scheduler only ever discards. */
  function Chosen(v: Variant, e: Estimate): Mode {
    if v.V2? then e.strategy else Recompute
  }

  lemma ChosenKind(v: Variant, e: Estimate)
    ensures v.InferCept? ==> Chosen(v, e).Recompute?
  {
  }

  lemma CandidateModes(v: Variant, paused: map<Id, Mode>, estimate: Id -> Estimate, candidates: set<Id>)
    requires forall y :: y in candidates <==> y in paused && Candidate(v, paused[y], estimate(y))
    ensures forall y :: y in candidates ==> y in paused && paused[y].Preserve?
  {
  }

  /** The worst candidates are those that reach the greatest waste. */
  lemma WorstReach(v: Variant, paused: map<Id, Mode>, estimate: Id -> Estimate, candidates: set<Id>,
                   maxWaste: real, x: Id)
    requires forall y :: y in candidates <==> y in paused && Candidate(v, paused[y], estimate(y))
    requires forall y :: y in candidates ==> estimate(y).waste <= maxWaste
    requires maxWaste >= -1.0 && (maxWaste == -1.0 || exists y :: y in candidates && estimate(y).waste == maxWaste)
    ensures Worst(v, paused, estimate, x) <==> x in candidates && estimate(x).waste >= maxWaste
  {
  }

  /** How a request with `gpu` GPU blocks is paused once it is given up by a strategy: a swap-out takes place
      if and only if `room` CPU blocks can take all of them. */
  function Outcome(strategy: Mode, gpu: nat, room: nat): Mode {
    if strategy.Swap? && room < gpu then Preserve else strategy
  }

  /** The free CPU blocks once a request with table `t` was given up. */
  ghost function RoomAfter(strategy: Mode, t: Table, room: nat): (left: nat)
    ensures Outcome(strategy, |OnDevice(t, GPU)|, room).Preserve? ==> left == room
  {
    match Outcome(strategy, |OnDevice(t, GPU)|, room)
    case Recompute => room + |OnDevice(t, CPU)|
    case Swap => room - |OnDevice(t, GPU)|
    case Preserve => room
  }

  /** The free CPU blocks once the requests in `order` were given up, one after the other. */
  ghost function RoomLeft(v: Variant, tables: map<Id, Table>, estimate: Id -> Estimate, order: seq<Id>,
                          room: nat): nat
  {
    if order == [] then room
    else
      var n := |order| - 1;
      RoomAfter(Chosen(v, estimate(order[n])), TableOf(tables, order[n]),
                RoomLeft(v, tables, estimate, order[..n], room))
  }

  /** Every request in `order` is paused as its strategy says, a swap-out only if the CPU had the room when it
      was its turn. */
  ghost predicate Fates(v: Variant, tables: map<Id, Table>, estimate: Id -> Estimate, order: seq<Id>, room: nat,
                        paused: map<Id, Mode>)
  {
    forall i {:trigger FateAt(v, tables, estimate, order, room, paused, i)} :: 0 <= i < |order| ==>
      FateAt(v, tables, estimate, order, room, paused, i)
  }

  ghost predicate FateAt(v: Variant, tables: map<Id, Table>, estimate: Id -> Estimate, order: seq<Id>, room: nat,
                         paused: map<Id, Mode>, i: nat)
    requires i < |order|
  {
    order[i] in paused && paused[order[i]] ==
      Outcome(Chosen(v, estimate(order[i])), |OnDevice(TableOf(tables, order[i]), GPU)|,
              RoomLeft(v, tables, estimate, order[..i], room))
  }

  lemma FatesStart(v: Variant, tables: map<Id, Table>, estimate: Id -> Estimate, room: nat, paused: map<Id, Mode>)
    ensures Fates(v, tables, estimate, [], room, paused) && RoomLeft(v, tables, estimate, [], room) == room
    ensures NoDup<Id>([])
  {
  }

  /** One more request was given up. */
  lemma FatesNext(v: Variant, tables: map<Id, Table>, estimate: Id -> Estimate, order: seq<Id>, room: nat,
                  paused: map<Id, Mode>, paused': map<Id, Mode>, x: Id)
    requires Fates(v, tables, estimate, order, room, paused) && x !in order
    requires paused' == paused[x := Outcome(Chosen(v, estimate(x)), |OnDevice(TableOf(tables, x), GPU)|,
      RoomLeft(v, tables, estimate, order, room))]
    ensures Fates(v, tables, estimate, order + [x], room, paused')
    ensures RoomLeft(v, tables, estimate, order + [x], room) ==
      RoomAfter(Chosen(v, estimate(x)), TableOf(tables, x), RoomLeft(v, tables, estimate, order, room))
  {
    hide RoomAfter, Chosen, Outcome, TableOf, OnDevice;
    var longer := order + [x];
    assert longer[..|order|] == order;
    forall i | 0 <= i < |longer| ensures FateAt(v, tables, estimate, longer, room, paused', i) {
      if i < |order| {
        assert FateAt(v, tables, estimate, order, room, paused, i) && longer[..i] == order[..i];
        assert order[i] in order;
      }
    }
  }

  /** What the two schedulers make of the estimated strategies: the newer one follows them, except that a request
      is kept where the CPU has no room for it; the older one only discards. */
  lemma FatesFollow(v: Variant, tables: map<Id, Table>, estimate: Id -> Estimate, order: seq<Id>, room: nat,
                    paused: map<Id, Mode>, i: nat)
    requires Fates(v, tables, estimate, order, room, paused) && i < |order|
    ensures order[i] in paused
    ensures var x := order[i];
      var gpu, free := |OnDevice(TableOf(tables, x), GPU)|, RoomLeft(v, tables, estimate, order[..i], room);
      if v.InferCept? || estimate(x).strategy.Recompute? then paused[x].Recompute?
      else if estimate(x).strategy.Preserve? then paused[x].Preserve?
      else if gpu <= free then paused[x].Swap? else paused[x].Preserve?
  {
    hide RoomLeft;
    assert FateAt(v, tables, estimate, order, room, paused, i);
  }

  /** The tables of the requests in `left` are as they were. */
  ghost predicate SameTables(tables: map<Id, Table>, tables': map<Id, Table>, left: set<Id>) {
    forall x :: x in left ==> TableOf(tables', x) == TableOf(tables, x)
  }

  lemma SameTablesSelf(tables: map<Id, Table>, left: set<Id>)
    ensures SameTables(tables, tables, left)
  {
  }

  lemma SameTablesNext(tables: map<Id, Table>, s: Sys, s': Sys, x: Id, left: set<Id>)
    requires SameTables(tables, s.pool.tables, left + {x}) && OthersSame(s, s', x) && x !in left
    requires forall y :: y in left ==> y in s.place
    ensures SameTables(tables, s'.pool.tables, left)
  {
    forall y | y in left ensures TableOf(s'.pool.tables, y) == TableOf(tables, y) {
      assert SameAt(s, s', y);
    }
  }

  lemma SameTableOf(tables: map<Id, Table>, tables': map<Id, Table>, left: set<Id>, x: Id)
    requires SameTables(tables, tables', left + {x})
    ensures TableOf(tables', x) == TableOf(tables, x) && SameTables(tables, tables', left)
  {
  }

  lemma VictimsPlaced(s: Sys, left: set<Id>)
    requires forall y :: y in left ==> Victim(s, y, AtPaused)
    ensures forall y :: y in left ==> y in s.place
  {
  }

  lemma OutcomeIs(gpu: nat, room: nat)
    ensures Outcome(Recompute, gpu, room) == Recompute && Outcome(Preserve, gpu, room) == Preserve
    ensures Outcome(Swap, gpu, room) == if gpu <= room then Swap else Preserve
  {
  }

  lemma RoomAfterIs(t: Table, room: nat)
    ensures RoomAfter(Recompute, t, room) == room + |OnDevice(t, CPU)| && RoomAfter(Preserve, t, room) == room
    ensures RoomAfter(Swap, t, room) ==
      if |OnDevice(t, GPU)| <= room then room - |OnDevice(t, GPU)| else room
  {
  }
}
