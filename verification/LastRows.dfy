/** The rows that the sampler reads, on the worker's own lists: each request's last forwarded token. */
module LastRows {
  import opened Basics
  import opened Sequences
  import opened Worker
  import opened CacheWrites
  import opened Execution
  import opened Sampling

  /** The rows before those of flat sequence `j`. */
  lemma {:induction false} RowsBefore(b: nat, ms: seq<Meta>, lens: seq<nat>, j: nat)
    requires AllReady(b, ms) && LensOf(ms) == lens && j <= |ms|
    ensures AllReady(b, ms[..j]) && Sum(lens[..j]) == |AllCells(b, ms[..j])|
    decreases j
  {
    assert forall m :: m in ms[..j] ==> m in ms;
    if j > 0 {
      RowsBefore(b, ms, lens, j - 1);
      assert lens[..j][..j - 1] == lens[..j - 1] && ms[..j][..j - 1] == ms[..j - 1];
      assert ms[j - 1] in ms;
    } else {
      assert lens[..0] == [] && ms[..0] == [];
    }
  }

  lemma {:induction false} CellsPrefix(b: nat, ms: seq<Meta>, j: nat)
    requires AllReady(b, ms) && j <= |ms|
    ensures AllReady(b, ms[..j]) && AllCells(b, ms[..j]) <= AllCells(b, ms)
    decreases |ms| - j
  {
    hide CellsOf;
    assert forall m :: m in ms[..j] ==> m in ms;
    if j < |ms| {
      CellsPrefix(b, ms, j + 1);
      assert ms[..j + 1][..j] == ms[..j] && ms[j] in ms;
    } else {
      assert ms[..j] == ms;
    }
  }

  /** The last row of flat sequence `j` is the place of its last cell. */
  lemma LastRowCell(b: nat, ms: seq<Meta>, lens: seq<nat>, j: nat)
    requires AllReady(b, ms) && LensOf(ms) == lens && j < |ms| && ms[j].data.runningInflight > 0
    ensures ms[j].Ready(b) && 0 <= LastRow(lens, j) < |AllCells(b, ms)|
    ensures AllCells(b, ms)[LastRow(lens, j)] == CellAt(b, ms[j], ms[j].data.runningInflight - 1)
  {
    hide AllCells, CellAt, Sum;
    assert ms[j] in ms && forall m :: m in ms[..j] ==> m in ms;
    RowsBefore(b, ms, lens, j + 1);
    CellsPrefix(b, ms, j + 1);
    AllCellsNext(b, ms[..j], ms[j]);
    assert ms[..j + 1] == ms[..j] + [ms[j]];
    var before, more := AllCells(b, ms[..j]), CellsOf(b, ms[j]);
    assert AllCells(b, ms[..j + 1])[|before + more| - 1] == more[|more| - 1];
  }

  /** Every group is one sequence, as the engine makes them. */
  ghost predicate Single(groups: seq<Group>, ids: seq<Id>) {
    |groups| == |ids| && forall i :: 0 <= i < |groups| ==> groups[i].ids == [ids[i]]
  }

  lemma {:induction false} SingleFirst(groups: seq<Group>, ids: seq<Id>, i: nat)
    requires Single(groups, ids) && i <= |groups|
    ensures FirstSeq(groups, i) == i
  {
    if i > 0 {
      SingleFirst(groups, ids, i - 1);
    }
  }

  /** Row `k` of the flat lists is the last token that the batch forwards of request `m`; if that is all
      of it, the last token that the request has. */
  ghost predicate LastToken(b: nat, metas: seq<Meta>, r: Inputs, m: Meta, generating: bool, k: int)
    requires AllReady(b, Pass(metas, true)) && AllReady(b, Pass(metas, false))
  {
    var cells := AllCells(b, Pass(metas, true)) + AllCells(b, Pass(metas, false));
    && 0 <= k < |r.tokens| == |r.positions| == |cells| && cells[k].id == m.id
    && r.positions[k] == m.Start() + m.data.runningInflight - 1 < m.data.Len()
    && r.tokens[k] == m.data.Tokens()[r.positions[k]]
    && (generating && (m.isPrompt ==> m.data.Cached() == 0) ==> r.positions[k] == m.data.Len() - 1)
  }

  ghost predicate AllForward(metas: seq<Meta>) {
    forall m :: m in metas ==> m.data.resumeDiscard == 0
  }

  /** The row that the sampler reads for group `i` is that of its request's last forwarded token. */
  lemma OwnRowIsLast(b: nat, metas: seq<Meta>, r: Inputs, groups: seq<Group>, i: nat)
    requires AllReady(b, Pass(metas, true)) && AllReady(b, Pass(metas, false)) && Prepared(b, metas, r)
    requires AllForward(metas) && Single(groups, r.groups) && i < |groups|
    ensures FirstSeq(groups, i + 1) <= |r.promptLens + r.runningLens| && i < |Order(metas)| && i < |r.generating|
    ensures var rows := OwnRows(groups, r.promptLens + r.runningLens, i);
      |rows| == 1 && LastToken(b, metas, r, Order(metas)[i], r.generating[i], rows[0])
  {
    hide Pass, AllCells, LastRow;
    var ms, lens := Order(metas), r.promptLens + r.runningLens;
    var p, q := Pass(metas, true), Pass(metas, false);
    CellsConcat(b, p, q);
    assert ms == p + q;
    OrderedLists(metas, r, i);
    SingleFirst(groups, r.groups, i);
    SingleFirst(groups, r.groups, i + 1);
    assert ms[i] in ms;
    LastRowCell(b, ms, lens, i);
  }

  lemma OrderedLists(metas: seq<Meta>, r: Inputs, i: nat)
    requires r.groups == IdsOf(Pass(metas, true)) + IdsOf(Pass(metas, false)) && i < |r.groups| && AllForward(metas)
    requires r.promptLens == LensOf(Pass(metas, true)) && r.runningLens == LensOf(Pass(metas, false))
    requires r.generating == GeneratingOf(Pass(metas, true)) + GeneratingOf(Pass(metas, false))
    requires forall m :: m in Pass(metas, true) + Pass(metas, false) ==> 0 <= m.data.runningInflight
    ensures var ms := Order(metas);
      && LensOf(ms) == r.promptLens + r.runningLens && |ms| == |r.groups| == |r.generating|
      && ms[i].id == r.groups[i] && ms[i].data.runningInflight > 0
      && (r.generating[i] <==> ms[i].data.inflight == ms[i].data.runningInflight)
  {
    hide Pass;
    PassMembers(metas, true);
    PassMembers(metas, false);
    var ms := Order(metas);
    assert ms == Pass(metas, true) + Pass(metas, false);
    assert ms[i] in ms && ms[i] in metas;
  }

  /** Gathering the last rows by sampling type and reading them back by group, on the worker's lists. */
  method RowsToSample(groups: seq<Group>, r: Inputs, ghost b: nat, ghost metas: seq<Meta>)
    returns (rows: seq<seq<int>>)
    requires AllReady(b, Pass(metas, true)) && AllReady(b, Pass(metas, false)) && Prepared(b, metas, r)
    requires AllForward(metas) && Single(groups, r.groups)
    ensures |rows| == |groups| == |Order(metas)| == |r.generating|
    ensures forall i :: 0 <= i < |groups| ==> |rows[i]| == 1 && Order(metas)[i].id == groups[i].ids[0]
    ensures forall i :: 0 <= i < |groups| ==>
      LastToken(b, metas, r, Order(metas)[i], r.generating[i], rows[i][0])
  {
    hide Pass, AllCells, LastToken, Gathered, OwnRows, FirstSeq;
    SingleFirst(groups, r.groups, |groups|);
    OrderSizes(metas, r);
    var lens := r.promptLens + r.runningLens;
    var gathered := Prune(groups, lens);
    rows := ReadRows(groups, gathered, lens);
    forall i | 0 <= i < |groups|
      ensures |rows[i]| == 1 && LastToken(b, metas, r, Order(metas)[i], r.generating[i], rows[i][0])
    {
      assert OwnAt(groups, lens, rows, i);
      OwnRowIsLast(b, metas, r, groups, i);
    }
  }

  lemma OrderSizes(metas: seq<Meta>, r: Inputs)
    requires r.groups == IdsOf(Pass(metas, true)) + IdsOf(Pass(metas, false))
    requires r.promptLens == LensOf(Pass(metas, true)) && r.runningLens == LensOf(Pass(metas, false))
    requires r.generating == GeneratingOf(Pass(metas, true)) + GeneratingOf(Pass(metas, false))
    ensures |Order(metas)| == |r.groups| == |r.promptLens + r.runningLens| == |r.generating|
    ensures forall i :: 0 <= i < |r.groups| ==> Order(metas)[i].id == r.groups[i]
  {
    hide Pass;
  }
}
