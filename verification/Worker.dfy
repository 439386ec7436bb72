/** The worker's bridge from block tables to cache cells: which tokens one iteration forwards, at
    which positions, and into which slots of the GPU cache. */
module Worker {
  import opened Basics
  import opened Blocks
  import opened Sequences
  import opened Layouts
  import opened System
  import opened Memory

  /** What the scheduler tells the worker about one scheduled request. */
  datatype Meta = Meta(id: Id, isPrompt: bool, data: SeqRec, table: Table) {
    predicate OnlySwap() {
      data.runningInflight + data.resumeDiscard == 0
    }

    /** The position of the first token to forward. */
    function Start(): int {
      if isPrompt then 0 else data.Cached()
    }

    /** The token ranges and the block indices that `_prepare_inputs` will use exist. */
    predicate Ready(b: nat) {
      && 0 <= Start() && 0 <= data.runningInflight && 0 <= data.resumeDiscard
      && Start() + data.runningInflight <= data.Len()
      && b > 0 && CeilDiv(Start() + data.runningInflight, b) <= |table|
    }
  }

  /** One token to forward: its value, its position, and the slot that its keys and values go to. */
  datatype Cell = Cell(id: Id, position: nat, token: Token, slot: nat)

  /** The flat lists for the model; `groups` is the order in which the sampler sees the requests. */
  datatype Inputs = Inputs(groups: seq<Id>, tokens: seq<Token>, positions: seq<nat>, slots: seq<nat>,
                           promptLens: seq<nat>, runningLens: seq<nat>, generating: seq<bool>)

  function Slot(t: Table, b: nat, position: nat): nat
    requires b > 0 && position / b < |t|
  {
    t[position / b].number * b + position % b
  }

  function CellAt(b: nat, m: Meta, i: nat): Cell
    requires m.Ready(b) && i < m.data.runningInflight
  {
    var p := m.Start() + i;
    PositionInBlock(p, m.Start() + m.data.runningInflight, b);
    Cell(m.id, p, m.data.Tokens()[p], Slot(m.table, b, p))
  }

  /** The cells of one request: consecutive positions from its first token to forward. */
  function CellsOf(b: nat, m: Meta): (r: seq<Cell>)
    requires m.Ready(b)
    ensures |r| == m.data.runningInflight
    ensures forall i :: 0 <= i < |r| ==> r[i] == CellAt(b, m, i)
  {
    seq(m.data.runningInflight, i requires 0 <= i < m.data.runningInflight => CellAt(b, m, i))
  }

  /** The requests of one pass: prompts first, in a pass of their own; swap-only requests in neither. */
  function Pass(metas: seq<Meta>, prompts: bool): seq<Meta> {
    if metas == [] then []
    else
      var m := metas[|metas| - 1];
      Pass(metas[..|metas| - 1], prompts) + if m.isPrompt == prompts && !m.OnlySwap() then [m] else []
  }

  ghost predicate AllReady(b: nat, metas: seq<Meta>) {
    forall m :: m in metas ==> m.Ready(b)
  }

  function AllCells(b: nat, metas: seq<Meta>): seq<Cell>
    requires AllReady(b, metas)
  {
    if metas == [] then []
    else
      assert forall m :: m in metas[..|metas| - 1] ==> m in metas;
      AllCells(b, metas[..|metas| - 1]) + CellsOf(b, metas[|metas| - 1])
  }

  lemma {:induction false} PassMembers(metas: seq<Meta>, prompts: bool)
    ensures forall m :: m in Pass(metas, prompts) <==> m in metas && m.isPrompt == prompts && !m.OnlySwap()
  {
    if metas != [] {
      var n := |metas| - 1;
      PassMembers(metas[..n], prompts);
      assert metas == metas[..n] + [metas[n]];
    }
  }

  lemma PassExtends(b: nat, metas: seq<Meta>, i: nat, prompts: bool)
    requires i <= |metas| && AllReady(b, Pass(metas, prompts))
    ensures AllReady(b, Pass(metas[..i], prompts))
  {
    PassMembers(metas, prompts);
    PassMembers(metas[..i], prompts);
  }

  /** The lists agree, entry by entry, with a list of cells. */
  ghost predicate Lists3(tokens: seq<Token>, positions: seq<nat>, slots: seq<nat>, cells: seq<Cell>) {
    && |tokens| == |positions| == |slots| == |cells|
    && forall k :: 0 <= k < |cells| ==>
         tokens[k] == cells[k].token && positions[k] == cells[k].position && slots[k] == cells[k].slot
  }

  function IdsOf(metas: seq<Meta>): seq<Id> {
    seq(|metas|, i requires 0 <= i < |metas| => metas[i].id)
  }

  function LensOf(metas: seq<Meta>): seq<int> {
    seq(|metas|, i requires 0 <= i < |metas| => metas[i].data.runningInflight)
  }

  function GeneratingOf(metas: seq<Meta>): seq<bool> {
    seq(|metas|, i requires 0 <= i < |metas| => metas[i].data.inflight == metas[i].data.runningInflight)
  }

  /** What `_prepare_inputs` computes: the prompts' cells, then the others' cells. */
  ghost predicate Prepared(b: nat, metas: seq<Meta>, r: Inputs)
    requires AllReady(b, Pass(metas, true)) && AllReady(b, Pass(metas, false))
  {
    var p, q := Pass(metas, true), Pass(metas, false);
    && Lists3(r.tokens, r.positions, r.slots, AllCells(b, p) + AllCells(b, q))
    && r.groups == IdsOf(p) + IdsOf(q)
    && r.promptLens == LensOf(p) && r.runningLens == LensOf(q)
    && r.generating == GeneratingOf(p) + GeneratingOf(q)
  }

  /** `_prepare_inputs` without padding and without the tensors built from these lists. */
  method PrepareInputs(b: nat, metas: seq<Meta>) returns (r: Inputs)
    requires AllReady(b, Pass(metas, true)) && AllReady(b, Pass(metas, false))
    ensures Prepared(b, metas, r)
  {
    hide Pass, AllCells, AllReady;
    r := OnePass(b, metas, true, Inputs([], [], [], [], [], [], []), []);
    assert [] + AllCells(b, Pass(metas, true)) == AllCells(b, Pass(metas, true));
    r := OnePass(b, metas, false, r, AllCells(b, Pass(metas, true)));
  }

  method OnePass(b: nat, metas: seq<Meta>, prompts: bool, r0: Inputs, ghost cells: seq<Cell>) returns (r: Inputs)
    requires AllReady(b, Pass(metas, prompts)) && Lists3(r0.tokens, r0.positions, r0.slots, cells)
    ensures Extended(b, r0, r, cells, Pass(metas, prompts), prompts)
  {
    hide Extended, Appended, Pass;
    r := r0;
    var i := 0;
    NothingBefore(metas, prompts);
    NothingExtended(b, r0, cells, prompts);
    while i < |metas|
      invariant i <= |metas| && AllReady(b, Pass(metas[..i], prompts))
      invariant Extended(b, r0, r, cells, Pass(metas[..i], prompts), prompts)
    {
      ghost var was, ms := r, Pass(metas[..i], prompts);
      PassExtends(b, metas, i + 1, prompts);
      var m := metas[i];
      PassNext(metas, i, prompts);
      if m.isPrompt == prompts && !m.OnlySwap() {
        assert m in Pass(metas[..i + 1], prompts);
        r := AppendRequest(b, m, prompts, r);
        ExtendedByOne(b, r0, was, r, cells, ms, m, prompts);
      } else {
        assert Pass(metas[..i + 1], prompts) == ms;
      }
      i := i + 1;
    }
    assert metas[..i] == metas;
  }

  lemma NothingBefore(metas: seq<Meta>, prompts: bool)
    ensures Pass(metas[..0], prompts) == []
  {
  }

  lemma PassNext(metas: seq<Meta>, i: nat, prompts: bool)
    requires i < |metas|
    ensures Pass(metas[..i + 1], prompts) ==
            Pass(metas[..i], prompts) + if metas[i].isPrompt == prompts && !metas[i].OnlySwap() then [metas[i]] else []
  {
    assert metas[..i + 1][..i] == metas[..i];
  }

  /** The entries of one request: a slice of its tokens, the positions, and their slots. */
  method AppendRequest(b: nat, m: Meta, prompts: bool, r0: Inputs) returns (r: Inputs)
    requires m.Ready(b)
    ensures Appended(b, r0, r, m, prompts)
  {
    var n := m.data.runningInflight;
    var slots := AppendSlots(b, m, r0.slots);
    r := r0.(tokens := r0.tokens + TokensOf(b, m), positions := r0.positions + PositionsOf(b, m),
             slots := slots, groups := r0.groups + [m.id],
             generating := r0.generating + [m.data.inflight == n]);
    if prompts {
      r := r.(promptLens := r.promptLens + [n]);
    } else {
      r := r.(runningLens := r.runningLens + [n]);
    }
  }

  /** `r` is `r0`, whose lists agree with `cells`, followed by the entries of `ms`. */
  ghost predicate Extended(b: nat, r0: Inputs, r: Inputs, cells: seq<Cell>, ms: seq<Meta>, prompts: bool)
    requires AllReady(b, ms)
  {
    && Lists3(r.tokens, r.positions, r.slots, cells + AllCells(b, ms))
    && r.groups == r0.groups + IdsOf(ms)
    && r.generating == r0.generating + GeneratingOf(ms)
    && r.promptLens == r0.promptLens + (if prompts then LensOf(ms) else [])
    && r.runningLens == r0.runningLens + (if prompts then [] else LensOf(ms))
  }

  lemma NothingExtended(b: nat, r: Inputs, cells: seq<Cell>, prompts: bool)
    requires Lists3(r.tokens, r.positions, r.slots, cells)
    ensures Extended(b, r, r, cells, [], prompts)
  {
    assert cells + AllCells(b, []) == cells;
  }

  /** The entries of one more request, as the loop body appends them. */
  ghost predicate Appended(b: nat, r: Inputs, r': Inputs, m: Meta, prompts: bool)
    requires m.Ready(b)
  {
    var n := m.data.runningInflight;
    && r'.tokens == r.tokens + TokensOf(b, m) && r'.positions == r.positions + PositionsOf(b, m)
    && r'.slots == r.slots + SlotsOf(b, m)
    && r'.groups == r.groups + [m.id] && r'.generating == r.generating + [m.data.inflight == n]
    && r'.promptLens == (if prompts then r.promptLens + [n] else r.promptLens)
    && r'.runningLens == (if prompts then r.runningLens else r.runningLens + [n])
  }

  lemma ExtendedByOne(b: nat, r0: Inputs, r: Inputs, r': Inputs, cells: seq<Cell>, ms: seq<Meta>, m: Meta,
                      prompts: bool)
    requires AllReady(b, ms) && m.Ready(b) && Extended(b, r0, r, cells, ms, prompts) && Appended(b, r, r', m, prompts)
    ensures AllReady(b, ms + [m]) && Extended(b, r0, r', cells, ms + [m], prompts)
  {
    hide AllCells, Lists3, CellsOf, SlotsOf, IdsOf, LensOf, GeneratingOf;
    CellsExtended(b, r, r', cells, ms, m, prompts);
    RestExtended(ms, m);
  }

  lemma CellsExtended(b: nat, r: Inputs, r': Inputs, cells: seq<Cell>, ms: seq<Meta>, m: Meta, prompts: bool)
    requires AllReady(b, ms) && m.Ready(b) && Lists3(r.tokens, r.positions, r.slots, cells + AllCells(b, ms))
    requires Appended(b, r, r', m, prompts)
    ensures AllReady(b, ms + [m]) && Lists3(r'.tokens, r'.positions, r'.slots, cells + AllCells(b, ms + [m]))
  {
    hide Lists3, CellsOf, SlotsOf, TokensOf, PositionsOf;
    var all, more := cells + AllCells(b, ms), CellsOf(b, m);
    AllCellsNext(b, ms, m);
    assert cells + AllCells(b, ms + [m]) == all + more;
    PieceAgrees(b, m);
    ListsExtended(r.tokens, r.positions, r.slots, all, TokensOf(b, m), PositionsOf(b, m), SlotsOf(b, m), more);
  }

  lemma AllCellsNext(b: nat, ms: seq<Meta>, m: Meta)
    requires AllReady(b, ms) && m.Ready(b)
    ensures AllReady(b, ms + [m]) && AllCells(b, ms + [m]) == AllCells(b, ms) + CellsOf(b, m)
  {
    hide CellsOf;
    assert (ms + [m])[..|ms|] == ms;
  }

  /** One request's slices of tokens, positions and slots agree with its cells. */
  lemma PieceAgrees(b: nat, m: Meta)
    requires m.Ready(b)
    ensures Lists3(TokensOf(b, m), PositionsOf(b, m), SlotsOf(b, m), CellsOf(b, m))
  {
  }

  lemma RestExtended(ms: seq<Meta>, m: Meta)
    ensures IdsOf(ms + [m]) == IdsOf(ms) + [m.id]
    ensures LensOf(ms + [m]) == LensOf(ms) + [m.data.runningInflight]
    ensures GeneratingOf(ms + [m]) == GeneratingOf(ms) + [m.data.inflight == m.data.runningInflight]
  {
  }

  lemma ListsExtended(t: seq<Token>, p: seq<nat>, s: seq<nat>, cells: seq<Cell>,
                      t': seq<Token>, p': seq<nat>, s': seq<nat>, more: seq<Cell>)
    requires Lists3(t, p, s, cells) && Lists3(t', p', s', more)
    ensures Lists3(t + t', p + p', s + s', cells + more)
  {
  }

  /** The slice of its tokens that a request forwards. */
  function TokensOf(b: nat, m: Meta): seq<Token>
    requires m.Ready(b)
  {
    m.data.Tokens()[m.Start()..m.Start() + m.data.runningInflight]
  }

  function PositionsOf(b: nat, m: Meta): seq<nat>
    requires m.Ready(b)
  {
    seq(m.data.runningInflight, j requires 0 <= j < m.data.runningInflight => m.Start() + j)
  }

  function SlotsOf(b: nat, m: Meta): (r: seq<nat>)
    requires m.Ready(b)
    ensures |r| == m.data.runningInflight
  {
    seq(m.data.runningInflight, i requires 0 <= i < m.data.runningInflight => CellAt(b, m, i).slot)
  }

  /** The slot loop: block number times block size plus offset, position by position. */
  method AppendSlots(b: nat, m: Meta, slots0: seq<nat>) returns (slots: seq<nat>)
    requires m.Ready(b)
    ensures slots == slots0 + SlotsOf(b, m)
  {
    slots := slots0;
    var i := 0;
    while i < m.data.runningInflight
      invariant 0 <= i <= m.data.runningInflight
      invariant slots == slots0 + SlotsOf(b, m)[..i]
    {
      var position := m.Start() + i;
      PositionInBlock(position, m.Start() + m.data.runningInflight, b);
      var blockNumber := m.table[position / b].number;
      var blockOffset := position % b;
      slots := slots + [blockNumber * b + blockOffset];
      assert SlotsOf(b, m)[..i + 1] == SlotsOf(b, m)[..i] + [CellAt(b, m, i).slot];
      i := i + 1;
    }
    assert SlotsOf(b, m)[..i] == SlotsOf(b, m);
  }
}
