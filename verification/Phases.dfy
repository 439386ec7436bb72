/** How the phases of one iteration hand the scheduler's state on, on values. */
module Phases {
  import opened Basics
  import opened Blocks
  import opened Sequences
  import opened Layouts
  import opened BlockManager
  import opened System
  import opened Memory
  import opened Steps
  import opened Preemption
  import opened Rounds
  import opened Sorting

  predicate Settled(p: Place) {
    p.AtWaiting? || p.AtRunning? || p.AtBatch? || p.AtSwapped? || p.AtPaused? || p.AtDone?
  }

  /** Between two `_schedule` calls: `pre` may still be preempted, `batch` is scheduled so far. */
  ghost predicate Between(s: Sys, pre: seq<Id>, batch: seq<Id>) {
    && !s.split && VictimList(s, pre, AtPaused) && Lists(batch, s.place, AtBatch)
    && (forall x :: x in s.place ==> Settled(s.place[x]))
  }

  function Rehoused(place: map<Id, Place>, ids: seq<Id>, p: Place): map<Id, Place> {
    map x | x in place :: if x in ids then p else place[x]
  }

  /** Where the phase over `q` leaves the targets that it could not schedule. */
  function Home(q: Queue): Place {
    match q
    case QRunning => AtRunning
    case QSwapped => AtSwapped
    case _ => AtWaiting
  }

  lemma OpenPhase(s: Sys, l: Log, q: Queue, pre: seq<Id>, batch: seq<Id>)
    requires Sound(s, l) && Between(s, pre, batch) && !q.QCombined? && (q.QRunning? ==> batch == [])
    ensures At(s, Opening(q, pre))
  {
    hide PoolOk, Exclusive, AllGood, Refines, Journal, Queues, VictimList;
  }

  /** The state after a phase that is not the combined one: what was scheduled runs, what was
      delayed goes back to where it came from. */
  function Closed(s: Sys, r: Round): Sys {
    s.(place := Rehoused(Rehoused(s.place, r.scheduled, AtBatch), r.delayed, Home(r.q)),
       running := s.running + r.scheduled + (if r.q.QRunning? then r.delayed else []),
       swapped := s.swapped + (if r.q.QSwapped? then r.delayed else []),
       waiting := (if r.q.QWaiting? then r.delayed else []) + s.waiting)
  }

  lemma ClosePhase(s: Sys, l: Log, r: Round, batch: seq<Id>)
    requires Sound(s, l) && At(s, r) && r.cur.None? && !r.q.QCombined? && Lists(batch, s.place, AtBatch)
    requires forall x :: x in r.delayed ==> x in s.data && s.data[x].Idle()
    ensures Sound(Closed(s, r), l) && Between(Closed(s, r), r.pre, batch + r.scheduled)
    ensures BatchTokens(s.data, batch + r.scheduled) == BatchTokens(s.data, batch) + r.tokens
  {
    hide PoolOk, Exclusive, Sound, GoodAt, Refines, Journal, Queues, VictimList, Phase, At;
    var s' := Closed(s, r);
    SoundKeys(s, l);
    AtParts(s, r);
    ClosedPlaces(s, r, batch);
    ClosedGood(s, r);
    ClosedQueues(s, r);
    SoundAgain(s, l, s');
    ClosedBetween(s, r, batch);
    BatchTokensConcat(s.data, batch, r.scheduled);
  }

  lemma AtParts(s: Sys, r: Round)
    requires At(s, r)
    ensures Phase(s, r.q, r.scheduled, r.delayed, r.cur) && VictimList(s, r.pre, AtPaused)
    ensures BatchTokens(s.data, r.scheduled) == r.tokens
  {
  }

  /** New places and lists, the same data and tables: the invariant is a matter of places and lists alone. */
  lemma SoundAgain(s: Sys, l: Log, s': Sys)
    requires Sound(s, l) && s'.b == s.b && s'.limit == s.limit
    requires s'.pool == s.pool && s'.data == s.data && s'.paused == s.paused
    requires s'.place.Keys == s.place.Keys == s.data.Keys && s.b > 0
    requires forall x :: InBatch(s.place, x) ==> InBatch(s'.place, x)
    requires AllGood(s') && Queues(s')
    ensures Sound(s', l)
  {
    JournalPlace(l, s.pool.tables, s.place, s'.place);
    TracedKept(s, l, s');
  }

  lemma ClosedKeys(s: Sys, r: Round)
    ensures Closed(s, r).place.Keys == s.place.Keys
  {
  }

  lemma ClosedPlaces(s: Sys, r: Round, batch: seq<Id>)
    requires Phase(s, r.q, r.scheduled, r.delayed, None) && !r.q.QCombined? && s.data.Keys == s.place.Keys && Queues(s)
    requires Lists(batch, s.place, AtBatch)
    ensures var s' := Closed(s, r);
      && s'.place.Keys == s.place.Keys
      && (forall x :: InBatch(s.place, x) ==> InBatch(s'.place, x))
      && (forall x :: x in s.place ==> Settled(s'.place[x]))
      && Lists(batch + r.scheduled, s'.place, AtBatch)
  {
    hide Queues, Closed;
    ClosedKeys(s, r);
    var s' := Closed(s, r);
    forall x | x in s.place
      ensures Settled(s'.place[x]) && (InBatch(s.place, x) ==> InBatch(s'.place, x))
      ensures s'.place[x].AtBatch? <==> x in batch + r.scheduled
    {
      ClosedPlace(s, r, x);
    }
    NoDupConcat(batch, r.scheduled);
  }

  lemma ClosedPlace(s: Sys, r: Round, x: Id)
    requires Phase(s, r.q, r.scheduled, r.delayed, None) && !r.q.QCombined? && s.data.Keys == s.place.Keys && Queues(s)
    requires x in s.place
    ensures var p, p' := s.place[x], Closed(s, r).place[x];
      && Settled(p')
      && p' == (match p case AtScheduled => AtBatch case AtDelayed => Home(r.q) case _ => p)
  {
  }

  lemma ClosedGood(s: Sys, r: Round)
    requires s.b > 0 && s.data.Keys == s.place.Keys && AllGood(s) && Queues(s)
    requires Phase(s, r.q, r.scheduled, r.delayed, None) && !r.q.QCombined?
    requires forall x :: x in r.delayed ==> x in s.data && s.data[x].Idle()
    ensures AllGood(Closed(s, r))
  {
    hide Queues, AllGood, Phase;
    forall x | x in s.place ensures GoodAt(Closed(s, r), x) {
      ClosedGoodAt(s, r, x);
    }
    AllGoodFrom(Closed(s, r));
  }

  lemma AllGoodFrom(s: Sys)
    requires s.b > 0 && s.data.Keys == s.place.Keys && forall x :: x in s.place ==> GoodAt(s, x)
    ensures AllGood(s)
  {
  }

  lemma ClosedGoodAt(s: Sys, r: Round, x: Id)
    requires s.b > 0 && s.data.Keys == s.place.Keys && AllGood(s) && Queues(s)
    requires Phase(s, r.q, r.scheduled, r.delayed, None) && !r.q.QCombined?
    requires forall x :: x in r.delayed ==> x in s.data && s.data[x].Idle()
    requires x in s.place
    ensures GoodAt(Closed(s, r), x)
  {
    ClosedPlace(s, r, x);
    assert GoodAt(s, x);
  }

  lemma ClosedQueues(s: Sys, r: Round)
    requires s.data.Keys == s.place.Keys && Queues(s)
    requires Phase(s, r.q, r.scheduled, r.delayed, None) && !r.q.QCombined?
    ensures Queues(Closed(s, r))
  {
    hide Registers, Lists, ListsRunning;
    var s' := Closed(s, r);
    forall x | x in s.place
      ensures s'.place[x] ==
        (match s.place[x] case AtScheduled => AtBatch case AtDelayed => Home(r.q) case _ => s.place[x])
    {
      ClosedPlace(s, r, x);
    }
    ClosedRunning(s, r, s'.place);
    assert [] + s.combined == s.combined;
    ClosedList(s.combined, [], s.place, s'.place, r.q, AtCombined);
    var back := if r.q.QSwapped? then r.delayed else [];
    ClosedList(s.swapped, back, s.place, s'.place, r.q, AtSwapped);
    ListsSwap(back, s.swapped, s'.place, AtSwapped);
    ClosedList(s.waiting, if r.q.QWaiting? then r.delayed else [], s.place, s'.place, r.q, AtWaiting);
  }

  lemma ClosedList(l: seq<Id>, delayed: seq<Id>, place: map<Id, Place>, place': map<Id, Place>, q: Queue, p: Place)
    requires Lists(l, place, p) && (p.AtWaiting? || p.AtSwapped? || p.AtCombined?)
    requires place'.Keys == place.Keys && forall x :: x in place ==>
      place'[x] == (match place[x] case AtScheduled => AtBatch case AtDelayed => Home(q) case _ => place[x])
    requires if Home(q) == p then Lists(delayed, place, AtDelayed) else delayed == []
    ensures Lists(delayed + l, place', p)
  {
    NoDupConcat(delayed, l);
  }

  lemma ClosedRunning(s: Sys, r: Round, place: map<Id, Place>)
    requires ListsRunning(s.running, s.place) && Lists(r.scheduled, s.place, AtScheduled)
    requires Lists(r.delayed, s.place, AtDelayed)
    requires place.Keys == s.place.Keys && forall x :: x in s.place ==>
      place[x] == (match s.place[x] case AtScheduled => AtBatch case AtDelayed => Home(r.q) case _ => s.place[x])
    ensures ListsRunning(s.running + r.scheduled + (if r.q.QRunning? then r.delayed else []), place)
  {
    NoDupConcat(s.running, r.scheduled);
    NoDupConcat(s.running + r.scheduled, if r.q.QRunning? then r.delayed else []);
  }

  lemma ClosedBetween(s: Sys, r: Round, batch: seq<Id>)
    requires VictimList(s, r.pre, AtPaused) && Phase(s, r.q, r.scheduled, r.delayed, None) && !r.q.QCombined?
    requires Closed(s, r).place.Keys == s.place.Keys && Lists(batch + r.scheduled, Closed(s, r).place, AtBatch)
    requires forall x :: x in s.place ==> Settled(Closed(s, r).place[x])
    ensures Between(Closed(s, r), r.pre, batch + r.scheduled)
  {
    forall v | v in r.pre ensures Victim(Closed(s, r), v, AtPaused) {
      assert Victim(s, v, AtPaused);
    }
  }

  /** The batch of the earlier phases comes through a later one as it was. */
  lemma BatchThrough(s: Sys, r: Round, s': Sys, r': Round, batch: seq<Id>)
    requires Onward(s, r, s', r') && Lists(batch, s.place, AtBatch)
    ensures Lists(batch, s'.place, AtBatch) && BatchTokens(s'.data, batch) == BatchTokens(s.data, batch)
  {
    forall x | x in batch ensures Batched(s'.data, x) == Batched(s.data, x) {
      assert FrozenAt(s, s', x);
    }
    BatchTokensSame(s.data, s'.data, batch);
  }

  lemma ListsSwap(a: seq<Id>, b: seq<Id>, place: map<Id, Place>, p: Place)
    requires Lists(a + b, place, p)
    ensures Lists(b + a, place, p)
  {
    forall i, j | 0 <= i < |a| && 0 <= j < |b| ensures a[i] != b[j] {
      assert (a + b)[i] == a[i] && (a + b)[|a| + j] == b[j];
    }
    assert NoDup(a) by { assert forall i :: 0 <= i < |a| ==> (a + b)[i] == a[i]; }
    assert NoDup(b) by { assert forall i :: 0 <= i < |b| ==> (a + b)[|a| + i] == b[i]; }
    NoDupConcat(b, a);
  }

  // ---- The combined phase

  /** The state in which the second phase of the newer scheduler starts: its targets are a sorted
      copy `c` of the swapped and waiting requests. */
  function Combined(s: Sys, c: seq<Id>): Sys {
    s.(combined := c, split := true, place := Rehoused(s.place, c, AtCombined))
  }

  lemma OpenCombined(s: Sys, l: Log, c: seq<Id>, pre: seq<Id>, batch: seq<Id>)
    requires Sound(s, l) && Between(s, pre, batch) && multiset(c) == multiset(s.swapped + s.waiting)
    ensures Sound(Combined(s, c), l) && At(Combined(s, c), Opening(QCombined, pre))
    ensures Lists(batch, Combined(s, c).place, AtBatch)
  {
    hide PoolOk, Exclusive, Sound, GoodAt, Refines, Journal, Queues, VictimList, AllGood;
    var s' := Combined(s, c);
    SoundKeys(s, l);
    CombinedMembers(s, c);
    CombinedGood(s, c);
    CombinedQueues(s, c);
    SoundAgain(s, l, s');
    CombinedPre(s, c, pre);
  }

  lemma CombinedMembers(s: Sys, c: seq<Id>)
    requires s.data.Keys == s.place.Keys && Queues(s) && !s.split && multiset(c) == multiset(s.swapped + s.waiting)
    ensures NoDup(c) && forall x :: x in c <==> x in s.place && (s.place[x].AtSwapped? || s.place[x].AtWaiting?)
  {
    NoDupConcat(s.swapped, s.waiting);
    PermutedMembers(s.swapped + s.waiting, c);
  }

  lemma CombinedGood(s: Sys, c: seq<Id>)
    requires s.b > 0 && s.data.Keys == s.place.Keys && AllGood(s)
    requires forall x :: x in c <==> x in s.place && (s.place[x].AtSwapped? || s.place[x].AtWaiting?)
    ensures AllGood(Combined(s, c))
  {
    forall x | x in s.place ensures GoodAt(Combined(s, c), x) {
      assert GoodAt(s, x);
    }
  }

  lemma CombinedQueues(s: Sys, c: seq<Id>)
    requires s.b > 0 && s.data.Keys == s.place.Keys && Queues(s) && !s.split && AllGood(s)
    requires forall x :: x in s.place ==> Settled(s.place[x])
    requires NoDup(c) && forall x :: x in c <==> x in s.place && (s.place[x].AtSwapped? || s.place[x].AtWaiting?)
    ensures Queues(Combined(s, c))
  {
    hide AllGood, Registers;
    CombinedRegisters(s, c);
  }

  lemma CombinedRegisters(s: Sys, c: seq<Id>)
    requires s.b > 0 && s.data.Keys == s.place.Keys && AllGood(s)
    requires Lists(s.waiting, s.place, AtWaiting) && Lists(s.swapped, s.place, AtSwapped)
    requires forall x :: x in s.place ==> Settled(s.place[x])
    requires forall x :: x in c <==> x in s.place && (s.place[x].AtSwapped? || s.place[x].AtWaiting?)
    ensures Registers(Combined(s, c))
  {
    hide AllGood;
    forall x | x in s.place
      ensures s.place[x].AtSwapped? ==> s.data[x].status.Swapped?
      ensures s.place[x].AtWaiting? ==> s.data[x].status.Waiting?
    {
      StatusKnown(s, x);
    }
  }

  lemma StatusKnown(s: Sys, x: Id)
    requires s.b > 0 && s.data.Keys == s.place.Keys && AllGood(s) && x in s.place
    ensures s.place[x].AtSwapped? ==> s.data[x].status.Swapped?
    ensures s.place[x].AtWaiting? ==> s.data[x].status.Waiting?
  {
    assert GoodAt(s, x);
  }

  lemma CombinedPre(s: Sys, c: seq<Id>, pre: seq<Id>)
    requires VictimList(s, pre, AtPaused)
    requires forall x :: x in c <==> x in s.place && (s.place[x].AtSwapped? || s.place[x].AtWaiting?)
    ensures VictimList(Combined(s, c), pre, AtPaused)
  {
    forall v | v in pre ensures Victim(Combined(s, c), v, AtPaused) {
      assert Victim(s, v, AtPaused);
    }
  }

  function In(l: seq<Id>): Id -> bool {
    (x: Id) => x in l
  }

  /** The state after the combined phase: a target that was not scheduled goes back to the queue
      that still lists it, in the order of the combined list. */
  function Parted(s: Sys, r: Round): Sys {
    var left := r.delayed + s.combined;
    var swapped, waiting := Select(left, In(s.swapped)), Select(left, In(s.waiting));
    s.(split := false, combined := [], running := s.running + r.scheduled, swapped := swapped, waiting := waiting,
       place := Rehoused(Rehoused(Rehoused(s.place, r.scheduled, AtBatch), swapped, AtSwapped), waiting, AtWaiting))
  }

  lemma CloseCombined(s: Sys, l: Log, r: Round, batch: seq<Id>)
    requires Sound(s, l) && At(s, r) && r.cur.None? && r.q.QCombined? && Lists(batch, s.place, AtBatch)
    requires forall x :: x in r.delayed ==> x in s.data && s.data[x].Idle()
    ensures Sound(Parted(s, r), l)
    ensures var all := Select(r.scheduled, In(s.waiting)) + batch + Select(r.scheduled, In(s.swapped));
      && Between(Parted(s, r), r.pre, all)
      && BatchTokens(s.data, all) == BatchTokens(s.data, batch) + r.tokens
  {
    hide PoolOk, Exclusive, Sound, GoodAt, Refines, Journal, Queues, VictimList, AllGood, Phase, At;
    SoundKeys(s, l);
    AtParts(s, r);
    PartedPlaces(s, r);
    PartedGood(s, r);
    PartedQueues(s, r);
    SoundAgain(s, l, Parted(s, r));
    PartedBatch(s, r, batch);
    PartedPre(s, r);
  }

  /** Where the combined phase leaves a request that was at place `p`. */
  function PartedPlace(s: Sys, x: Id): Place
    requires x in s.place
  {
    match s.place[x]
    case AtScheduled => AtBatch
    case AtDelayed => if x in s.swapped then AtSwapped else AtWaiting
    case AtCombined => if x in s.swapped then AtSwapped else AtWaiting
    case p => p
  }

  lemma PartedPlaces(s: Sys, r: Round)
    requires s.data.Keys == s.place.Keys && Queues(s) && Phase(s, r.q, r.scheduled, r.delayed, None) && r.q.QCombined?
    ensures Parted(s, r).place.Keys == s.place.Keys
    ensures forall x :: x in s.place ==> Parted(s, r).place[x] == PartedPlace(s, x) && Settled(PartedPlace(s, x))
    ensures forall x :: InBatch(s.place, x) ==> InBatch(Parted(s, r).place, x)
  {
    hide Queues, Phase, Parted, PartedPlace;
    PartedKeys(s, r);
    forall x | x in s.place
      ensures Parted(s, r).place[x] == PartedPlace(s, x) && Settled(PartedPlace(s, x))
      ensures InBatch(s.place, x) ==> PartedPlace(s, x).AtBatch?
    {
      PartedPlaceAt(s, r, x);
      PartedInBatch(s, x);
    }
  }

  lemma PartedKeys(s: Sys, r: Round)
    ensures Parted(s, r).place.Keys == s.place.Keys
  {
  }

  lemma PartedInBatch(s: Sys, x: Id)
    requires x in s.place
    ensures InBatch(s.place, x) ==> PartedPlace(s, x).AtBatch?
  {
  }

  lemma PartedPlaceAt(s: Sys, r: Round, x: Id)
    requires s.data.Keys == s.place.Keys && Queues(s) && Phase(s, r.q, r.scheduled, r.delayed, None) && r.q.QCombined?
    requires x in s.place
    ensures Parted(s, r).place[x] == PartedPlace(s, x) && Settled(PartedPlace(s, x))
  {
    assert x in r.delayed + s.combined <==> s.place[x].AtDelayed? || s.place[x].AtCombined?;
  }

  lemma PartedGood(s: Sys, r: Round)
    requires s.b > 0 && s.data.Keys == s.place.Keys && AllGood(s) && Queues(s)
    requires Phase(s, r.q, r.scheduled, r.delayed, None) && r.q.QCombined?
    requires forall x :: x in r.delayed ==> x in s.data && s.data[x].Idle()
    requires Parted(s, r).place.Keys == s.place.Keys
    requires forall x :: x in s.place ==> Parted(s, r).place[x] == PartedPlace(s, x)
    ensures AllGood(Parted(s, r))
  {
    hide Parted, Good, PartedPlace, Queues, Phase;
    forall x | x in s.place
      ensures Good(s.b, s.limit, s.data[x], Lookup(s.pool.tables, x), PartedPlace(s, x), Lookup(s.paused, x))
    {
      PartedGoodAt(s, r, x);
    }
    PartedSame(s, r);
  }

  lemma PartedGoodAt(s: Sys, r: Round, x: Id)
    requires s.b > 0 && s.data.Keys == s.place.Keys && AllGood(s) && Queues(s) && x in s.place
    requires Phase(s, r.q, r.scheduled, r.delayed, None) && r.q.QCombined?
    requires forall x :: x in r.delayed ==> x in s.data && s.data[x].Idle()
    ensures Good(s.b, s.limit, s.data[x], Lookup(s.pool.tables, x), PartedPlace(s, x), Lookup(s.paused, x))
  {
    hide Layout, PendingLayout, ListsRunning, ListsPaused;
    assert GoodAt(s, x);
  }

  lemma PartedSame(s: Sys, r: Round)
    requires s.b > 0 && s.data.Keys == s.place.Keys && Parted(s, r).place.Keys == s.place.Keys
    requires forall x :: x in s.place ==> Parted(s, r).place[x] == PartedPlace(s, x)
    requires forall x :: x in s.place ==>
      Good(s.b, s.limit, s.data[x], Lookup(s.pool.tables, x), PartedPlace(s, x), Lookup(s.paused, x))
    ensures AllGood(Parted(s, r))
  {
    hide Good;
  }

  lemma PartedQueues(s: Sys, r: Round)
    requires s.data.Keys == s.place.Keys && Queues(s) && Phase(s, r.q, r.scheduled, r.delayed, None) && r.q.QCombined?
    requires Parted(s, r).place.Keys == s.place.Keys
    requires forall x :: x in s.place ==> Parted(s, r).place[x] == PartedPlace(s, x)
    ensures Queues(Parted(s, r))
  {
    hide Lists, ListsRunning, Registers, PartedPlace;
    PartedRunning(s, r, Parted(s, r).place);
    PartedLists(s, r, Parted(s, r).place);
  }

  lemma PartedRunning(s: Sys, r: Round, place: map<Id, Place>)
    requires s.data.Keys == s.place.Keys == place.Keys
    requires ListsRunning(s.running, s.place) && ListsPaused(s.paused, s.place)
    requires Lists(r.scheduled, s.place, AtScheduled)
    requires forall x :: x in s.place ==> place[x] == PartedPlace(s, x)
    ensures ListsRunning(s.running + r.scheduled, place) && ListsPaused(s.paused, place)
  {
    NoDupConcat(s.running, r.scheduled);
  }

  lemma PartedLists(s: Sys, r: Round, place: map<Id, Place>)
    requires s.data.Keys == s.place.Keys == place.Keys && Registers(s)
    requires Lists(r.delayed, s.place, AtDelayed) && Lists(s.combined, s.place, AtCombined)
    requires forall x :: x in s.place ==> !s.place[x].AtCurrent?
    requires forall x :: x in s.place ==> place[x] == PartedPlace(s, x)
    ensures var left := r.delayed + s.combined;
      && Lists([], place, AtCombined)
      && Lists(Select(left, In(s.swapped)), place, AtSwapped) && Lists(Select(left, In(s.waiting)), place, AtWaiting)
  {
    hide Registers, Select;
    var left := r.delayed + s.combined;
    NoDupConcat(r.delayed, s.combined);
    SelectNoDup(left, In(s.swapped));
    SelectNoDup(left, In(s.waiting));
    forall x | x in s.place
      ensures place[x].AtSwapped? <==> x in left && x in s.swapped
      ensures place[x].AtWaiting? <==> x in left && x in s.waiting
      ensures !place[x].AtCombined?
    {
      PartedOne(s, left, x);
    }
  }

  lemma PartedOne(s: Sys, left: seq<Id>, x: Id)
    requires s.data.Keys == s.place.Keys && Registers(s) && x in s.place && !s.place[x].AtCurrent?
    requires x in left <==> s.place[x].AtDelayed? || s.place[x].AtCombined?
    ensures PartedPlace(s, x).AtSwapped? <==> x in left && x in s.swapped
    ensures PartedPlace(s, x).AtWaiting? <==> x in left && x in s.waiting
    ensures !PartedPlace(s, x).AtCombined?
  {
  }

  lemma PartedBatch(s: Sys, r: Round, batch: seq<Id>)
    requires s.data.Keys == s.place.Keys && Queues(s) && Phase(s, r.q, r.scheduled, r.delayed, None) && r.q.QCombined?
    requires Lists(batch, s.place, AtBatch) && Parted(s, r).place.Keys == s.place.Keys
    requires forall x :: x in s.place ==> Parted(s, r).place[x] == PartedPlace(s, x)
    ensures var all := Select(r.scheduled, In(s.waiting)) + batch + Select(r.scheduled, In(s.swapped));
      && Lists(all, Parted(s, r).place, AtBatch)
      && BatchTokens(s.data, all) == BatchTokens(s.data, batch) + BatchTokens(s.data, r.scheduled)
  {
    hide Parted, BatchTokens, PartedPlace, Select;
    var a, c := Select(r.scheduled, In(s.waiting)), Select(r.scheduled, In(s.swapped));
    BatchTokensConcat(s.data, a, batch);
    BatchTokensConcat(s.data, a + batch, c);
    BatchTokensParted(s.data, r.scheduled, In(s.waiting), In(s.swapped));
    PartedBatchLists(s, r, batch, Parted(s, r).place);
  }

  lemma PartedBatchLists(s: Sys, r: Round, batch: seq<Id>, place: map<Id, Place>)
    requires Lists(batch, s.place, AtBatch) && place.Keys == s.place.Keys && Lists(r.scheduled, s.place, AtScheduled)
    requires forall x :: x in r.scheduled ==> In(s.waiting)(x) != In(s.swapped)(x)
    requires forall x :: x in s.place ==> place[x] == PartedPlace(s, x)
    ensures Lists(Select(r.scheduled, In(s.waiting)) + batch + Select(r.scheduled, In(s.swapped)), place, AtBatch)
  {
    hide NoDup, PartedPlace, Select;
    var a, c := Select(r.scheduled, In(s.waiting)), Select(r.scheduled, In(s.swapped));
    SelectNoDup(r.scheduled, In(s.waiting));
    SelectNoDup(r.scheduled, In(s.swapped));
    NoDupConcat(a, batch);
    NoDupConcat(a + batch, c);
    forall x ensures x in a + batch + c <==> x in place && place[x] == AtBatch {
      BatchMembers(s, r, batch, place, x);
    }
  }

  lemma BatchMembers(s: Sys, r: Round, batch: seq<Id>, place: map<Id, Place>, x: Id)
    requires Lists(batch, s.place, AtBatch) && place.Keys == s.place.Keys && Lists(r.scheduled, s.place, AtScheduled)
    requires forall x :: x in r.scheduled ==> In(s.waiting)(x) != In(s.swapped)(x)
    requires forall x :: x in s.place ==> place[x] == PartedPlace(s, x)
    ensures x in Select(r.scheduled, In(s.waiting)) + batch + Select(r.scheduled, In(s.swapped)) <==>
      x in place && place[x] == AtBatch
  {
    hide NoDup, Select;
    SelectNoDup(r.scheduled, In(s.waiting));
    SelectNoDup(r.scheduled, In(s.swapped));
  }

  lemma {:induction false} BatchTokensParted(data: map<Id, SeqRec>, s: seq<Id>, p: Id -> bool, q: Id -> bool)
    requires forall x :: x in s ==> p(x) != q(x)
    ensures BatchTokens(data, Select(s, p)) + BatchTokens(data, Select(s, q)) == BatchTokens(data, s)
  {
    if s != [] {
      BatchTokensParted(data, s[1..], p, q);
      if p(s[0]) {
        assert Select(s, p)[1..] == Select(s[1..], p);
        assert Select(s, q) == Select(s[1..], q);
      } else {
        assert Select(s, q)[1..] == Select(s[1..], q);
        assert Select(s, p) == Select(s[1..], p);
      }
    }
  }

  lemma PartedPre(s: Sys, r: Round)
    requires VictimList(s, r.pre, AtPaused) && Parted(s, r).place.Keys == s.place.Keys
    requires forall x :: x in s.place ==> Parted(s, r).place[x] == PartedPlace(s, x)
    ensures VictimList(Parted(s, r), r.pre, AtPaused)
  {
    hide Parted;
    PartedOthers(s, r);
    forall v | v in r.pre ensures Victim(Parted(s, r), v, AtPaused) {
      assert Victim(s, v, AtPaused);
    }
  }

  lemma PartedOthers(s: Sys, r: Round)
    ensures var s' := Parted(s, r);
      && s'.data == s.data && s'.paused == s.paused && s'.pool == s.pool
      && s'.b == s.b && s'.limit == s.limit && !s'.split
  {
  }
}
