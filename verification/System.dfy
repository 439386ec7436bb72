/** The scheduler's state as one value, and the invariant that every step keeps. */
module System {
  import opened Basics
  import opened Blocks
  import opened Sequences
  import opened Layouts

  /** How a paused request keeps its cache. */
  datatype Mode = Preserve | Recompute | Swap

  /** Where a request is.  The scheduler's lists and dictionaries must agree with it.  `AtBatch` is
      a running request already scheduled in this iteration, and `AtForwarded` one whose tokens are
      all forwarded, about to get its next one; `AtCombined` is in the second phase's combined target
      list; `AtCurrent`, `AtScheduled` and `AtDelayed` are the locals of `_schedule`. */
  datatype Place =
    | AtWaiting | AtRunning | AtBatch | AtForwarded | AtSwapped | AtCombined | AtPaused
    | AtCurrent | AtScheduled | AtDelayed | AtDone

  /** `b` is the block size, `limit` the prompt limit; `split` holds during the phase that schedules
      a combined copy of `swapped + waiting`. */
  datatype Sys = Sys(
    b: nat, limit: int, pool: Pool, data: map<Id, SeqRec>,
    waiting: seq<Id>, running: seq<Id>, swapped: seq<Id>, combined: seq<Id>, paused: map<Id, Mode>,
    place: map<Id, Place>, split: bool)

  /** No table: every token is still to be forwarded. */
  ghost predicate Bare(d: SeqRec, t: Option<Table>) {
    t.None? && d.inflight == d.Len()
  }

  /** At least one GPU block. */
  ghost predicate Resident(d: SeqRec, t: Option<Table>) {
    t.Some? && d.swapLength < |t.value|
  }

  /** At least one block, all of them CPU blocks. */
  ghost predicate Offloaded(d: SeqRec, t: Option<Table>) {
    t.Some? && d.swapLength == |t.value| && t.value != []
  }

  function Rows(t: Option<Table>): Table {
    if t.Some? then t.value else []
  }

  ghost predicate ByStatus(d: SeqRec, t: Option<Table>) {
    || (d.status.Waiting? && Bare(d, t))
    || (d.status.Running? && Resident(d, t))
    || (d.status.Swapped? && Offloaded(d, t))
  }

  ghost predicate ByMode(d: SeqRec, t: Option<Table>, m: Mode) {
    match m
    case Preserve => Resident(d, t)
    case Swap => Offloaded(d, t)
    case Recompute => Bare(d, t)
  }

  /** What must hold of one request: its status matches its place, its counters match its table,
      and its table is where its status or pause mode says. */
  ghost predicate Good(b: nat, limit: int, d: SeqRec, t: Option<Table>, p: Place, m: Option<Mode>)
    requires b > 0
  {
    match p
    case AtDone =>
      && d.status.IsFinished() && (t.Some? ==> d.status.FinishedIgnored?) && |Rows(t)| <= d.Len()
      && (d.status.FinishedIgnored? ==> limit < d.Len())
    case AtScheduled => d.status.Running? && Resident(d.Forwarded(), t) && PendingLayout(b, d, Rows(t))
    case AtBatch => d.status.Running? && Resident(d.Forwarded(), t) && PendingLayout(b, d, Rows(t))
    case AtForwarded => d.status.Running? && Resident(d, t) && d.Idle() && d.inflight == 0 &&
      Layout(b, d.Appended(0), Rows(t))
    case _ =>
      && Layout(b, d.Cleared(), Rows(t)) && d.resumeDiscard == 0
      && (if p.AtPaused? then d.status.PausedApi? && m.Some? && ByMode(d, t, m.value) else ByStatus(d, t))
      && (p.AtWaiting? ==> d.status.Waiting?)
      && (p.AtRunning? ==> d.status.Running?)
      && (p.AtSwapped? ==> d.status.Swapped?)
      && (p.AtCombined? ==> !d.status.Running?)
      && (!p.AtCurrent? && !p.AtDelayed? ==> d.Idle())
  }

  ghost function Lookup<V>(m: map<Id, V>, id: Id): Option<V> {
    if id in m then Some(m[id]) else None
  }

  ghost predicate GoodAt(s: Sys, id: Id)
    requires s.b > 0 && id in s.place && id in s.data
  {
    Good(s.b, s.limit, s.data[id], Lookup(s.pool.tables, id), s.place[id], Lookup(s.paused, id))
  }

  /** A list holds, each once, exactly the requests at one place. */
  ghost predicate Lists(l: seq<Id>, place: map<Id, Place>, p: Place) {
    NoDup(l) && forall x :: x in l <==> x in place && place[x] == p
  }

  ghost predicate ListsRunning(l: seq<Id>, place: map<Id, Place>) {
    && NoDup(l)
    && (forall x :: x in l <==>
          (x in place && (place[x].AtRunning? || place[x].AtBatch? || place[x].AtForwarded?)))
  }

  ghost predicate ListsPaused(paused: map<Id, Mode>, place: map<Id, Place>) {
    forall x :: x in paused <==> x in place && place[x].AtPaused?
  }

  /** In a split phase the two queues are registers: a target is in the one that its status names,
      also after it was popped from the combined list. */
  ghost predicate Registers(s: Sys)
    requires s.data.Keys == s.place.Keys
  {
    && NoDup(s.waiting) && NoDup(s.swapped)
    && (forall x :: x in s.waiting ==> x !in s.swapped)
    && (forall x :: x in s.waiting || x in s.swapped ==> x in s.place && Target(s.place[x]))
    && (forall x :: x in s.place && Registered(s.place[x]) ==> x in s.waiting || x in s.swapped)
    && (forall x :: x in s.place && Unsettled(s.place[x]) ==>
          (x in s.waiting <==> s.data[x].status.Waiting?) && (x in s.swapped <==> s.data[x].status.Swapped?))
    && (forall x :: x in s.place ==> !s.place[x].AtWaiting? && !s.place[x].AtSwapped?)
    && (forall x :: x in s.waiting && x in s.place && s.place[x].AtScheduled? ==> s.data[x].Cached() == 0)
  }

  /** A request that is no target of the phase moves to a place where it is none either. */
  lemma RegistersElsewhere(s: Sys, s': Sys, x: Id, p: Place)
    requires s.data.Keys == s.place.Keys && Registers(s) && x in s.place
    requires !Target(s.place[x]) && !Target(p) && !p.AtWaiting? && !p.AtSwapped?
    requires s'.data.Keys == s.data.Keys && s'.place == s.place[x := p]
    requires s'.waiting == s.waiting && s'.swapped == s.swapped
    requires forall y :: y in s.data && y != x ==> s'.data[y] == s.data[y]
    ensures s'.data.Keys == s'.place.Keys && Registers(s')
  {
    assert x !in s.waiting && x !in s.swapped;
    forall y | y in s'.place
      ensures Registered(s'.place[y]) ==> y in s.waiting || y in s.swapped
      ensures Unsettled(s'.place[y]) ==>
        (y in s.waiting <==> s'.data[y].status.Waiting?) && (y in s.swapped <==> s'.data[y].status.Swapped?)
      ensures y in s.waiting && s'.place[y].AtScheduled? ==> s'.data[y].Cached() == 0
    {
      if y != x {
        assert s'.place[y] == s.place[y] && s'.data[y] == s.data[y];
      }
    }
  }

  predicate Unsettled(p: Place) {
    p.AtCombined? || p.AtDelayed? || p.AtCurrent?
  }

  predicate Registered(p: Place) {
    Unsettled(p) || p.AtScheduled?
  }

  predicate Target(p: Place) {
    Registered(p) || p.AtDone?
  }

  ghost predicate Queues(s: Sys)
    requires s.data.Keys == s.place.Keys
  {
    && ListsRunning(s.running, s.place)
    && ListsPaused(s.paused, s.place)
    && Lists(s.combined, s.place, AtCombined)
    && (if s.split then Registers(s)
        else s.combined == [] && Lists(s.waiting, s.place, AtWaiting) && Lists(s.swapped, s.place, AtSwapped))
  }

  ghost predicate AllGood(s: Sys)
    requires s.b > 0 && s.data.Keys == s.place.Keys
  {
    forall id {:trigger GoodAt(s, id)} :: id in s.place ==> GoodAt(s, id)
  }

  ghost predicate Inv(s: Sys) {
    && s.b > 0
    && PoolOk(s.pool) && Exclusive(s.pool.tables)
    && s.data.Keys == s.place.Keys
    && s.pool.tables.Keys <= s.place.Keys
    && AllGood(s)
    && Queues(s)
  }

  /** A step that touches one request keeps the rest good. */
  lemma OneChanged(s: Sys, s': Sys, id: Id)
    requires Inv(s) && s'.b == s.b && s'.limit == s.limit
    requires PoolOk(s'.pool) && Exclusive(s'.pool.tables)
    requires s'.data.Keys == s'.place.Keys == s.place.Keys && id in s.place
    requires s'.pool.tables.Keys <= s'.place.Keys
    requires forall x :: x in s.place && x != id ==> SameAt(s, s', x)
    requires GoodAt(s', id)
    requires Queues(s')
    ensures Inv(s')
  {
    forall x | x in s'.place ensures GoodAt(s', x) {
      if x != id {
        assert SameAt(s, s', x);
        assert GoodAt(s, x);
      }
    }
  }

  ghost predicate SameAt(s: Sys, s': Sys, x: Id)
    requires x in s.place && x in s.data
    requires x in s'.place && x in s'.data
  {
    && s'.place[x] == s.place[x] && s'.data[x] == s.data[x]
    && Lookup(s'.pool.tables, x) == Lookup(s.pool.tables, x)
    && Lookup(s'.paused, x) == Lookup(s.paused, x)
  }

  lemma ListsMember(l: seq<Id>, place: map<Id, Place>, p: Place, id: Id)
    requires Lists(l, place, p) && id in l
    ensures id in place && place[id] == p
  {
  }

  lemma ListsAppend(l: seq<Id>, place: map<Id, Place>, p: Place, id: Id)
    requires Lists(l, place, p) && id in place && place[id] != p
    ensures Lists(l + [id], place[id := p], p)
  {
    assert id !in l;
  }

  lemma ListsRemove(l: seq<Id>, place: map<Id, Place>, p: Place, id: Id, q: Place)
    requires Lists(l, place, p) && id in l && q != p
    ensures Lists(Remove(l, id), place[id := q], p)
  {
    RemoveKeepsOthers(l, id);
  }

  lemma ListsElsewhere(l: seq<Id>, place: map<Id, Place>, p: Place, id: Id, q: Place)
    requires Lists(l, place, p) && id in place && place[id] != p && q != p
    ensures Lists(l, place[id := q], p)
  {
  }

  lemma RunningListElsewhere(l: seq<Id>, place: map<Id, Place>, id: Id, q: Place)
    requires ListsRunning(l, place) && id in place
    requires !place[id].AtRunning? && !place[id].AtBatch? && !place[id].AtForwarded?
    requires !q.AtRunning? && !q.AtBatch? && !q.AtForwarded?
    ensures ListsRunning(l, place[id := q])
  {
  }

  lemma PausedElsewhere(paused: map<Id, Mode>, place: map<Id, Place>, id: Id, q: Place)
    requires ListsPaused(paused, place) && id in place && !place[id].AtPaused? && !q.AtPaused?
    ensures ListsPaused(paused, place[id := q])
  {
  }

  lemma ListsPop(l: seq<Id>, place: map<Id, Place>, p: Place, q: Place)
    requires Lists(l, place, p) && l != [] && q != p
    ensures l[0] in place && Lists(l[1..], place[l[0] := q], p)
  {
    assert l == [l[0]] + l[1..];
    assert l[0] !in l[1..];
  }
}
