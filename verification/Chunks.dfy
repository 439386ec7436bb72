/** Chunked prefill is exact: however a sequence's forwarding is cut into chunks, and whatever pauses,
    swaps and returned calls come in between, the tokens that the worker's lists held for it since its
    last restart are its cached tokens, each once and in order. */
module Chunks {
  import opened Basics
  import opened Blocks
  import opened Sequences
  import opened Layouts
  import opened System
  import opened Memory
  import opened Steps
  import opened Rounds
  import opened Phases
  import opened Iterations
  import opened Worker
  import opened CacheWrites
  import opened Outputs
  import opened Execution

  /** One forwarded token and the position it was forwarded at. */
  datatype Entry = Entry(position: int, token: Token)

  type Logs = map<Id, seq<Entry>>

  /** The first `n` tokens, in order and at their positions. */
  ghost predicate ReadTo(d: SeqRec, log: seq<Entry>, n: int) {
    && |log| == n <= d.Len()
    && forall i :: 0 <= i < |log| ==> log[i] == Entry(i, d.Tokens()[i])
  }

  /** What was forwarded are exactly the cached tokens. */
  ghost predicate Exact(d: SeqRec, log: seq<Entry>) {
    0 <= d.inflight <= d.Len() && ReadTo(d, log, d.Cached())
  }

  ghost predicate AllExact(data: map<Id, SeqRec>, logs: Logs) {
    forall x :: x in data ==> x in logs && Exact(data[x], logs[x])
  }

  /** Every request's log as it is once the batch's tokens were forwarded. */
  ghost predicate AllRead(data: map<Id, SeqRec>, logs: Logs, scheduled: seq<Id>) {
    forall x :: x in data ==> x in logs && ReadAt(data, logs, scheduled, x)
  }

  ghost predicate ReadAt(data: map<Id, SeqRec>, logs: Logs, scheduled: seq<Id>, x: Id)
    requires x in data && x in logs
  {
    && 0 <= data[x].inflight <= data[x].Len()
    && ReadTo(data[x], logs[x], data[x].Cached() + if x in scheduled then data[x].runningInflight else 0)
  }

  /** A request of which nothing is cached any more starts over. */
  ghost function Surviving(data: map<Id, SeqRec>, logs: Logs): Logs {
    map x | x in data :: if x in logs && data[x].Cached() != 0 then logs[x] else []
  }

  // ---- What the worker's lists say

  /** Whose token stands at each place of the flat lists: each group fills as many as its length says. */
  ghost function OwnersOf(groups: seq<Id>, lens: seq<nat>): seq<Id>
    requires |groups| == |lens|
  {
    if groups == [] then []
    else
      var n := |groups| - 1;
      OwnersOf(groups[..n], lens[..n]) + seq(lens[n], _ => groups[n])
  }

  /** The entries of one request in the flat lists. */
  ghost function EntriesOf(tokens: seq<Token>, positions: seq<nat>, owners: seq<Id>, x: Id): seq<Entry>
    requires |tokens| == |positions| == |owners|
  {
    if tokens == [] then []
    else
      var n := |tokens| - 1;
      EntriesOf(tokens[..n], positions[..n], owners[..n], x) +
        if owners[n] == x then [Entry(positions[n], tokens[n])] else []
  }

  /** The tokens that `_prepare_inputs` takes from one request. */
  ghost function ChunkOf(b: nat, m: Meta): seq<Entry>
    requires m.Ready(b)
  {
    seq(m.data.runningInflight, i requires 0 <= i < m.data.runningInflight =>
      Entry(m.Start() + i, m.data.Tokens()[m.Start() + i]))
  }

  ghost function Received(cells: seq<Cell>, x: Id): seq<Entry> {
    if cells == [] then []
    else
      var c := cells[|cells| - 1];
      Received(cells[..|cells| - 1], x) + if c.id == x then [Entry(c.position, c.token)] else []
  }

  lemma {:induction false} ReceivedConcat(p: seq<Cell>, q: seq<Cell>, x: Id)
    ensures Received(p + q, x) == Received(p, x) + Received(q, x)
  {
    if q == [] {
      assert p + q == p;
    } else {
      var n := |q| - 1;
      assert (p + q)[..|p + q| - 1] == p + q[..n];
      ReceivedConcat(p, q[..n], x);
    }
  }

  lemma {:induction false} ReceivedOwn(b: nat, m: Meta, k: nat)
    requires m.Ready(b) && k <= m.data.runningInflight
    ensures Received(CellsOf(b, m)[..k], m.id) == ChunkOf(b, m)[..k]
  {
    hide Received, CellAt, CellsOf, ChunkOf;
    CellIs(b, m, 0, k);
    var cells, chunk := CellsOf(b, m), ChunkOf(b, m);
    if k == 0 {
      ReceivedOther(cells[..0], m.id);
    } else {
      ReceivedOwn(b, m, k - 1);
      CellIs(b, m, k - 1, k);
      assert cells[..k] == cells[..k - 1] + [cells[k - 1]];
      assert chunk[..k] == chunk[..k - 1] + [chunk[k - 1]];
      ReceivedNext(cells[..k - 1], cells[k - 1], m.id);
    }
  }

  lemma CellIs(b: nat, m: Meta, i: nat, k: nat)
    requires m.Ready(b) && i <= k <= m.data.runningInflight
    ensures |CellsOf(b, m)| == |ChunkOf(b, m)| == m.data.runningInflight
    ensures i < m.data.runningInflight ==> var c := CellsOf(b, m)[i];
      c.id == m.id && ChunkOf(b, m)[i] == Entry(c.position, c.token)
  {
    if i < m.data.runningInflight {
      assert CellsOf(b, m)[i] == CellAt(b, m, i);
    }
  }

  lemma ReceivedNext(cells: seq<Cell>, c: Cell, x: Id)
    ensures Received(cells + [c], x) == Received(cells, x) + if c.id == x then [Entry(c.position, c.token)] else []
  {
    assert (cells + [c])[..|cells|] == cells;
  }

  lemma {:induction false} ReceivedOther(cells: seq<Cell>, x: Id)
    requires forall c :: c in cells ==> c.id != x
    ensures Received(cells, x) == []
  {
    if cells != [] {
      ReceivedOther(cells[..|cells| - 1], x);
    }
  }

  lemma CellIds(b: nat, m: Meta)
    requires m.Ready(b)
    ensures forall c :: c in CellsOf(b, m) ==> c.id == m.id
  {
    var cells := CellsOf(b, m);
    assert forall i :: 0 <= i < |cells| ==> cells[i] == CellAt(b, m, i);
  }

  /** What the cells of a batch hold for one request. */
  ghost function ChunkFor(b: nat, ms: seq<Meta>, x: Id): seq<Entry>
    requires AllReady(b, ms)
  {
    if ms == [] then []
    else
      assert forall m :: m in ms[..|ms| - 1] ==> m in ms;
      if ms[|ms| - 1].id == x then ChunkOf(b, ms[|ms| - 1]) else ChunkFor(b, ms[..|ms| - 1], x)
  }

  lemma ReceivedLast(b: nat, m: Meta, x: Id)
    requires m.Ready(b)
    ensures Received(CellsOf(b, m), x) == if m.id == x then ChunkOf(b, m) else []
  {
    CellIds(b, m);
    if m.id == x {
      ReceivedOwn(b, m, m.data.runningInflight);
      assert CellsOf(b, m)[..m.data.runningInflight] == CellsOf(b, m);
      assert ChunkOf(b, m)[..m.data.runningInflight] == ChunkOf(b, m);
    } else {
      ReceivedOther(CellsOf(b, m), x);
    }
  }

  lemma {:induction false} ReceivedChunk(b: nat, ms: seq<Meta>, x: Id)
    requires AllReady(b, ms) && DistinctIds(ms)
    ensures Received(AllCells(b, ms), x) == ChunkFor(b, ms, x)
  {
    hide CellsOf, ChunkOf, Received;
    if ms == [] {
      assert Received([], x) == [] by { ReceivedOther([], x); }
    } else {
      var n := |ms| - 1;
      var m, before := ms[n], ms[..n];
      assert forall m :: m in before ==> m in ms;
      ReceivedConcat(AllCells(b, before), CellsOf(b, m), x);
      ReceivedLast(b, m, x);
      if m.id == x {
        assert forall m' :: m' in before ==> m'.id != x;
        OthersCells(b, before, x);
        ReceivedOther(AllCells(b, before), x);
      } else {
        ReceivedChunk(b, before, x);
      }
    }
  }

  lemma {:induction false} OthersCells(b: nat, ms: seq<Meta>, x: Id)
    requires AllReady(b, ms) && forall m :: m in ms ==> m.id != x
    ensures forall c :: c in AllCells(b, ms) ==> c.id != x
  {
    if ms != [] {
      var n := |ms| - 1;
      assert forall m :: m in ms[..n] ==> m in ms;
      assert ms[n] in ms;
      OthersCells(b, ms[..n], x);
      CellIds(b, ms[n]);
    }
  }

  ghost predicate OwnedBy(owners: seq<Id>, cells: seq<Cell>) {
    |owners| == |cells| && forall k :: 0 <= k < |cells| ==> owners[k] == cells[k].id
  }

  lemma {:induction false} OwnersOfCells(b: nat, ms: seq<Meta>, lens: seq<nat>)
    requires AllReady(b, ms) && lens == LensOf(ms)
    ensures OwnedBy(OwnersOf(IdsOf(ms), lens), AllCells(b, ms))
  {
    if ms != [] {
      var n := |ms| - 1;
      assert forall m :: m in ms[..n] ==> m in ms;
      assert IdsOf(ms)[..n] == IdsOf(ms[..n]) && lens[..n] == LensOf(ms[..n]);
      OwnersOfCells(b, ms[..n], lens[..n]);
      CellIds(b, ms[n]);
      var cells := CellsOf(b, ms[n]);
      assert forall k :: 0 <= k < |cells| ==> cells[k] in cells;
    }
  }

  lemma {:induction false} EntriesOfLists(tokens: seq<Token>, positions: seq<nat>, slots: seq<nat>, owners: seq<Id>,
                                          cells: seq<Cell>, x: Id)
    requires Lists3(tokens, positions, slots, cells) && OwnedBy(owners, cells)
    ensures EntriesOf(tokens, positions, owners, x) == Received(cells, x)
  {
    if cells != [] {
      var n := |cells| - 1;
      EntriesOfLists(tokens[..n], positions[..n], slots[..n], owners[..n], cells[..n], x);
    }
  }

  /** The lengths of the requests of both passes. */
  ghost function Lens(r: Inputs): seq<nat> {
    r.promptLens + r.runningLens
  }

  lemma PreparedCells(b: nat, metas: seq<Meta>, r: Inputs)
    requires AllReady(b, Pass(metas, true)) && AllReady(b, Pass(metas, false)) && Prepared(b, metas, r)
    ensures AllReady(b, Order(metas)) && r.groups == IdsOf(Order(metas)) && Lens(r) == LensOf(Order(metas))
    ensures Lists3(r.tokens, r.positions, r.slots, AllCells(b, Order(metas)))
  {
    hide Pass, AllCells, CellsOf, IdsOf, LensOf;
    CellsConcat(b, Pass(metas, true), Pass(metas, false));
    IdsOfConcat(Pass(metas, true), Pass(metas, false));
    LensConcat(Pass(metas, true), Pass(metas, false));
  }

  lemma LensConcat(p: seq<Meta>, q: seq<Meta>)
    ensures LensOf(p + q) == LensOf(p) + LensOf(q)
  {
  }

  /** The lists that the worker builds hold exactly one chunk of each request with tokens to forward. */
  lemma ListsHoldChunks(b: nat, metas: seq<Meta>, r: Inputs, x: Id)
    requires AllReady(b, Pass(metas, true)) && AllReady(b, Pass(metas, false)) && Prepared(b, metas, r)
    requires DistinctIds(Order(metas))
    ensures AllReady(b, Order(metas)) && |r.groups| == |Lens(r)|
    ensures |r.tokens| == |r.positions| == |OwnersOf(r.groups, Lens(r))|
    ensures EntriesOf(r.tokens, r.positions, OwnersOf(r.groups, Lens(r)), x) == ChunkFor(b, Order(metas), x)
  {
    hide AllReady, Prepared, DistinctIds, Order, AllCells, OwnedBy;
    PreparedCells(b, metas, r);
    OwnersOfCells(b, Order(metas), Lens(r));
    EntriesOfLists(r.tokens, r.positions, r.slots, OwnersOf(r.groups, Lens(r)), AllCells(b, Order(metas)), x);
    ReceivedChunk(b, Order(metas), x);
  }

  // ---- The logs over one iteration

  ghost predicate Shaped(r: Inputs) {
    |r.groups| == |Lens(r)| && |r.tokens| == |r.positions| == |OwnersOf(r.groups, Lens(r))|
  }

  /** The logs once the worker's lists were forwarded. */
  ghost function Lengthened(data: map<Id, SeqRec>, logs: Logs, r: Inputs): Logs
    requires Shaped(r)
  {
    map x | x in data ::
      (if x in logs then logs[x] else []) + EntriesOf(r.tokens, r.positions, OwnersOf(r.groups, Lens(r)), x)
  }

  lemma {:induction false} ChunkForMember(b: nat, ms: seq<Meta>, m: Meta)
    requires AllReady(b, ms) && DistinctIds(ms) && m in ms
    ensures m.Ready(b) && ChunkFor(b, ms, m.id) == ChunkOf(b, m)
  {
    var n := |ms| - 1;
    assert forall m :: m in ms[..n] ==> m in ms;
    if ms[n].id == m.id {
      assert ms[n] == m;
    } else {
      ChunkForMember(b, ms[..n], m);
    }
  }

  lemma {:induction false} ChunkForNone(b: nat, ms: seq<Meta>, x: Id)
    requires AllReady(b, ms) && forall m :: m in ms ==> m.id != x
    ensures ChunkFor(b, ms, x) == []
  {
    if ms != [] {
      assert forall m :: m in ms[..|ms| - 1] ==> m in ms;
      assert ms[|ms| - 1] in ms;
      ChunkForNone(b, ms[..|ms| - 1], x);
    }
  }

  lemma ExactThenChunk(b: nat, m: Meta, log: seq<Entry>)
    requires m.Ready(b) && m.Start() == m.data.Cached()
    requires Exact(m.data, log) && m.data.runningInflight <= m.data.inflight
    ensures ReadTo(m.data, log + ChunkOf(b, m), m.data.Cached() + m.data.runningInflight)
  {
  }

  lemma BatchDistinct(s: Sys, ms: seq<Meta>)
    requires Batch(s, ms)
    ensures DistinctIds(ms)
  {
  }

  /** What a batch's lists add to one request's log. */
  lemma ChunkAdds(s: Sys, ms: seq<Meta>, batch: seq<Id>, x: Id, log: seq<Entry>)
    requires Inv(s) && Batch(s, ms) && Covers(s, ms) && x in s.data && Exact(s.data[x], log)
    requires Lists(batch, s.place, AtBatch)
    ensures AllReady(s.b, ms)
    ensures ReadTo(s.data[x], log + ChunkFor(s.b, ms, x),
      s.data[x].Cached() + if x in batch then s.data[x].runningInflight else 0)
  {
    hide Inv, ReadTo, Exact, Covers, ChunkOf, ChunkFor, DistinctIds;
    BatchReady(s, ms);
    if n :| 0 <= n < |ms| && ms[n].id == x {
      assert FromBatch(s, ms[n]) && ms[n] in ms;
      MetaReady(s, ms[n]);
      WorkBounded(s, x);
      BatchDistinct(s, ms);
      ChunkForMember(s.b, ms, ms[n]);
      ExactThenChunk(s.b, ms[n], log);
    } else {
      ChunkForNone(s.b, ms, x);
      assert log + [] == log;
      NoWork(s, ms, batch, x, log);
    }
  }

  lemma NoWork(s: Sys, ms: seq<Meta>, batch: seq<Id>, x: Id, log: seq<Entry>)
    requires Inv(s) && Covers(s, ms) && x in s.data && Exact(s.data[x], log) && Lists(batch, s.place, AtBatch)
    requires forall n :: 0 <= n < |ms| ==> ms[n].id != x
    ensures ReadTo(s.data[x], log, s.data[x].Cached() + if x in batch then s.data[x].runningInflight else 0)
  {
    hide Inv;
    if x in batch { WorkBounded(s, x); }
  }

  lemma WorkBounded(s: Sys, x: Id)
    requires Inv(s) && x in s.place && s.place[x].AtBatch?
    ensures x in s.data && 0 <= s.data[x].runningInflight <= s.data[x].inflight
  {
    assert GoodAt(s, x);
  }

  lemma ForwardedAll(s: Sys, l: Log, plan: Plan, logs: Logs, r: Inputs)
    requires Sound(s, l) && Between(s, [], plan.scheduled) && WellMarked(s.data, plan) && AllExact(s.data, logs)
    requires forall x :: x in plan.scheduled ==> x in s.data && x in s.pool.tables
    requires var metas := MetasOf(plan, s.data, s.pool.tables);
      s.b > 0 && AllReady(s.b, Pass(metas, true)) && AllReady(s.b, Pass(metas, false)) && Prepared(s.b, metas, r)
    ensures Shaped(r) && AllRead(s.data, Lengthened(s.data, logs, r), plan.scheduled)
  {
    hide *;
    MarkedSize(s.data, plan);
    var metas := MetasOf(plan, s.data, s.pool.tables);
    MetasBatch(s, l, plan);
    SoundInv(s, l);
    BetweenLists(s, plan.scheduled);
    BatchDistinct(s, Order(metas));
    ForwardedBatch(s, metas, plan.scheduled, logs, r);
  }

  lemma BetweenLists(s: Sys, batch: seq<Id>)
    requires Between(s, [], batch)
    ensures Lists(batch, s.place, AtBatch)
  {
  }

  lemma ForwardedBatch(s: Sys, metas: seq<Meta>, batch: seq<Id>, logs: Logs, r: Inputs)
    requires Inv(s) && s.b > 0 && Batch(s, Order(metas)) && Covers(s, Order(metas)) && AllExact(s.data, logs)
    requires Lists(batch, s.place, AtBatch) && DistinctIds(Order(metas))
    requires AllReady(s.b, Pass(metas, true)) && AllReady(s.b, Pass(metas, false)) && Prepared(s.b, metas, r)
    ensures Shaped(r) && AllRead(s.data, Lengthened(s.data, logs, r), batch)
  {
    hide Inv, Batch, Covers, Prepared, AllReady, Lists, ReadTo, EntriesOf, OwnersOf, DistinctIds;
    ListsHoldChunks(s.b, metas, r, 0);
    forall x | x in s.data ensures ReadAt(s.data, Lengthened(s.data, logs, r), batch, x) {
      ListsHoldChunks(s.b, metas, r, x);
      ChunkAdds(s, Order(metas), batch, x, logs[x]);
    }
  }

  /** Scheduling keeps what is cached of a request, or nothing. */
  lemma ExactScheduled(s: Sys, s': Sys, ignored: seq<Id>, logs: Logs)
    requires Passed(s, s', ignored) && AllExact(s.data, logs)
    ensures AllExact(s'.data, Surviving(s'.data, logs))
  {
  }

  lemma ExactAnswered(data: map<Id, SeqRec>, data': map<Id, SeqRec>, scheduled: seq<Id>, logs: Logs)
    requires AllRead(data, logs, scheduled) && AllAdvanced(data, data', scheduled) && data'.Keys == data.Keys
    ensures AllExact(data', Surviving(data', logs))
  {
    forall x | x in data' ensures Exact(data'[x], Surviving(data', logs)[x]) {
      assert ReadAt(data, logs, scheduled, x);
      assert data[x].Tokens() <= data'[x].Tokens();
    }
  }

  lemma ExactArrived(s: Sys, x: Id, prompt: seq<Token>, logs: Logs)
    requires AllExact(s.data, logs) && x !in s.data
    ensures AllExact(Arrived(s, x, prompt).data, Surviving(Arrived(s, x, prompt).data, logs))
  {
  }

  lemma ExactResumed(s: Sys, x: Id, tokens: seq<Token>, logs: Logs)
    requires AllExact(s.data, logs) && x in s.data && x in s.paused
    ensures AllExact(Resumed(s, x, tokens).data, Surviving(Resumed(s, x, tokens).data, logs))
  {
    hide Exact, Resumed;
    var data := Resumed(s, x, tokens).data;
    ResumedFields(s, x, tokens);
    ExactGrown(s.data[x], data[x], tokens, logs[x]);
    ExactSurvives(data, logs);
  }

  lemma ResumedFields(s: Sys, x: Id, tokens: seq<Token>)
    requires x in s.data && x in s.paused
    ensures var data := Resumed(s, x, tokens).data;
      && x in data && data == s.data[x := data[x]] && data[x].prompt == s.data[x].prompt
      && data[x].output == s.data[x].output + tokens && data[x].inflight == s.data[x].inflight + |tokens|
  {
  }

  lemma ExactGrown(d: SeqRec, d': SeqRec, tokens: seq<Token>, log: seq<Entry>)
    requires Exact(d, log) && d'.prompt == d.prompt && d'.output == d.output + tokens
    requires d'.inflight == d.inflight + |tokens|
    ensures Exact(d', log)
  {
    assert d.Tokens() + tokens == d'.Tokens();
  }

  lemma ExactSurvives(data: map<Id, SeqRec>, logs: Logs)
    requires AllExact(data, logs)
    ensures AllExact(data, Surviving(data, logs))
  {
  }

  lemma ExactDeparted(s: Sys, x: Id, status: Status, pool: Pool, logs: Logs)
    requires AllExact(s.data, logs) && x in s.data
    ensures AllExact(Departed(s, x, status, pool).data, Surviving(Departed(s, x, status, pool).data, logs))
  {
  }

  /** When a token was sampled for a request, the worker had been given every token of it, each once. */
  lemma SampledAfterAll(data: map<Id, SeqRec>, data': map<Id, SeqRec>, scheduled: seq<Id>, logs: Logs, x: Id)
    requires AllRead(data, logs, scheduled) && AllAdvanced(data, data', scheduled)
    requires x in data && x in data' && data'[x].output != data[x].output
    ensures x in logs && ReadTo(data[x], logs[x], data[x].Len())
  {
    assert ReadAt(data, logs, scheduled, x);
  }
}
