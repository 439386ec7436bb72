/** The two samplers bucket the requests of a batch by sampling type and scatter the results back.
    Both must return to each request what was sampled for it. */
module Sampling {
  import opened Basics
  import opened Sequences

  datatype Kind = Greedy | Random | Beam

  datatype Group = Group(ids: seq<Id>, kind: Kind, bestOf: nat)

  datatype SeqOutput = SeqOutput(parent: Id, token: Token)

  /** The indices of the groups of one sampling type, in order. */
  function Category(groups: seq<Group>, k: Kind): (r: seq<nat>)
    ensures forall i :: i in r <==> 0 <= i < |groups| && groups[i].kind == k
  {
    if groups == [] then []
    else
      var n := |groups| - 1;
      Category(groups[..n], k) + if groups[n].kind == k then [n] else []
  }

  lemma CategoryNext(groups: seq<Group>, i: nat, k: Kind)
    requires i < |groups|
    ensures Category(groups[..i + 1], k) == Category(groups[..i], k) + if groups[i].kind == k then [i] else []
  {
    assert groups[..i + 1][..i] == groups[..i];
  }

  /** The bucketing loop. */
  method Categorize(groups: seq<Group>) returns (ids: map<Kind, seq<nat>>)
    ensures forall k :: k in ids && ids[k] == Category(groups, k)
  {
    ids := map[Greedy := [], Random := [], Beam := []];
    var i := 0;
    assert groups[..0] == [];
    forall k: Kind ensures k in ids && ids[k] == [] {
      match k case Greedy => case Random => case Beam =>
    }
    while i < |groups|
      invariant i <= |groups|
      invariant forall k :: k in ids && ids[k] == Category(groups[..i], k)
    {
      forall k
        ensures Category(groups[..i + 1], k) == Category(groups[..i], k) + if groups[i].kind == k then [i] else []
      {
        CategoryNext(groups, i, k);
      }
      var k := groups[i].kind;
      ids := ids[k := ids[k] + [i]];
      i := i + 1;
    }
    assert groups[..i] == groups;
  }

  // ---- The simulator

  /** What the simulator answers for one group; a prompt's samples all come from its one sequence. */
  function Answer(g: Group, isPrompt: bool, sample: Id -> Token): seq<SeqOutput>
    requires g.ids != []
  {
    match g.kind
    case Greedy => [SeqOutput(g.ids[0], sample(g.ids[0]))]
    case _ =>
      if isPrompt then seq(g.bestOf, _ => SeqOutput(g.ids[0], sample(g.ids[0])))
      else seq(|g.ids|, j requires 0 <= j < |g.ids| => SeqOutput(g.ids[j], sample(g.ids[j])))
  }

  /** Every answer for a group continues one of its own sequences by what was sampled for that sequence: one
      answer if the choice is greedy, `bestOf` ones for a prompt, otherwise one for each sequence, in order. */
  lemma AnswerLaws(g: Group, isPrompt: bool, sample: Id -> Token)
    requires g.ids != []
    ensures var a := Answer(g, isPrompt, sample);
      && (forall i :: 0 <= i < |a| ==> a[i].parent in g.ids && a[i].token == sample(a[i].parent))
      && |a| == (if g.kind.Greedy? then 1 else if isPrompt then g.bestOf else |g.ids|)
      && (!g.kind.Greedy? && !isPrompt ==> forall i :: 0 <= i < |a| ==> a[i].parent == g.ids[i])
      && (g.kind.Greedy? || isPrompt ==> forall i :: 0 <= i < |a| ==> a[i].parent == g.ids[0])
  {
  }

  ghost predicate Scattered(groups: seq<Group>, numPrompts: nat, sample: Id -> Token,
                            outputs: map<nat, seq<SeqOutput>>, done: seq<nat>)
    requires forall g :: g in groups ==> g.ids != []
  {
    && (forall i :: i in outputs <==> i in done)
    && (forall i :: i in done ==> i < |groups| && outputs[i] == Answer(groups[i], i < numPrompts, sample))
  }

  /** `Simulator.forward`: `None` is the "beam search is not supported" error.  Bucketing and
      scattering together are the identity: output `i` answers group `i`. */
  method Simulate(groups: seq<Group>, numPrompts: nat, sample: Id -> Token) returns (r: Option<seq<seq<SeqOutput>>>)
    requires forall g :: g in groups ==> g.ids != []
    ensures r.None? <==> exists g :: g in groups && g.kind.Beam?
    ensures r.Some? ==> |r.value| == |groups|
    ensures r.Some? ==> forall i :: 0 <= i < |groups| ==> r.value[i] == Answer(groups[i], i < numPrompts, sample)
  {
    var ids := Categorize(groups);
    if ids[Beam] != [] {
      assert ids[Beam][0] in ids[Beam];
      return None;
    }
    var outputs: map<nat, seq<SeqOutput>> := map[];
    outputs := ScatterKind(groups, numPrompts, sample, outputs, [], ids[Greedy]);
    outputs := ScatterKind(groups, numPrompts, sample, outputs, ids[Greedy], ids[Random]);
    forall i | 0 <= i < |groups| ensures i in outputs {
      assert i in Category(groups, groups[i].kind);
      assert groups[i] in groups;
    }
    r := Some(seq(|groups|, i requires 0 <= i < |groups| => outputs[i]));
  }

  method ScatterKind(groups: seq<Group>, numPrompts: nat, sample: Id -> Token,
                     outputs0: map<nat, seq<SeqOutput>>, ghost done: seq<nat>, ids: seq<nat>)
    returns (outputs: map<nat, seq<SeqOutput>>)
    requires forall g :: g in groups ==> g.ids != []
    requires Scattered(groups, numPrompts, sample, outputs0, done)
    requires forall i :: i in ids ==> i < |groups|
    ensures Scattered(groups, numPrompts, sample, outputs, done + ids)
  {
    outputs := outputs0;
    assert done + ids[..0] == done;
    var k := 0;
    while k < |ids|
      invariant k <= |ids| && Scattered(groups, numPrompts, sample, outputs, done + ids[..k])
    {
      var i := ids[k];
      assert i in ids;
      assert done + ids[..k + 1] == done + ids[..k] + [i];
      outputs := outputs[i := Answer(groups[i], i < numPrompts, sample)];
      k := k + 1;
    }
    assert ids[..k] == ids;
  }

  // ---- The real sampler: which rows of the hidden states belong to which group

  function Sum(lens: seq<nat>): nat {
    if lens == [] then 0 else Sum(lens[..|lens| - 1]) + lens[|lens| - 1]
  }

  /** The row of the last token of flat sequence `j`. */
  function LastRow(lens: seq<nat>, j: nat): int
    requires j < |lens|
  {
    Sum(lens[..j + 1]) - 1
  }

  /** The index, among all sequences, of the first one of group `i`. */
  function FirstSeq(groups: seq<Group>, i: nat): nat
    requires i <= |groups|
  {
    if i == 0 then 0 else FirstSeq(groups, i - 1) + |groups[i - 1].ids|
  }

  lemma {:induction false} FirstSeqMono(groups: seq<Group>, i: nat, j: nat)
    requires i <= j <= |groups|
    ensures FirstSeq(groups, i) <= FirstSeq(groups, j)
    decreases j
  {
    if i < j {
      FirstSeqMono(groups, i, j - 1);
    }
  }

  /** The last-token rows of group `i`'s own sequences. */
  function OwnRows(groups: seq<Group>, lens: seq<nat>, i: nat): (r: seq<int>)
    requires i < |groups| && FirstSeq(groups, i + 1) <= |lens|
    ensures |r| == |groups[i].ids|
  {
    var first := FirstSeq(groups, i);
    seq(|groups[i].ids|, j requires 0 <= j < |groups[i].ids| => LastRow(lens, first + j))
  }

  predicate Within(ids: seq<nat>, n: nat) {
    forall i :: i in ids ==> i < n
  }

  lemma WithinPrefix(ids: seq<nat>, k: nat, n: nat)
    requires k <= |ids| && Within(ids, n)
    ensures Within(ids[..k], n)
  {
    forall i | i in ids[..k] ensures i < n {
      assert i in ids;
    }
  }

  /** The rows of several groups, one group after another. */
  function RowsFor(groups: seq<Group>, lens: seq<nat>, ids: seq<nat>): seq<int>
    requires |lens| == FirstSeq(groups, |groups|) && Within(ids, |groups|)
  {
    if ids == [] then []
    else
      var n := |ids| - 1;
      assert ids[n] in ids;
      WithinPrefix(ids, n, |groups|);
      FirstSeqMono(groups, ids[n] + 1, |groups|);
      RowsFor(groups, lens, ids[..n]) + OwnRows(groups, lens, ids[n])
  }

  lemma RowsForNext(groups: seq<Group>, lens: seq<nat>, ids: seq<nat>, i: nat)
    requires |lens| == FirstSeq(groups, |groups|) && i < |groups| && Within(ids, |groups|)
    ensures FirstSeq(groups, i + 1) <= |lens| && Within(ids + [i], |groups|)
    ensures RowsFor(groups, lens, ids + [i]) == RowsFor(groups, lens, ids) + OwnRows(groups, lens, i)
  {
    FirstSeqMono(groups, i + 1, |groups|);
    assert (ids + [i])[..|ids|] == ids;
  }

  /** The rows that the model's output layer gathers: by sampling type, then by group. */
  function Gathered(groups: seq<Group>, lens: seq<nat>): seq<int>
    requires |lens| == FirstSeq(groups, |groups|)
  {
    RowsFor(groups, lens, Category(groups, Greedy)) +
      (RowsFor(groups, lens, Category(groups, Random)) + RowsFor(groups, lens, Category(groups, Beam)))
  }

  /** `_prune_hidden_states`: walks the flat rows once and gathers each sequence's last row, by
      sampling type.  `lens` is the prompts' lengths followed by the running query lengths. */
  method Prune(groups: seq<Group>, lens: seq<nat>) returns (gathered: seq<int>)
    requires |lens| == FirstSeq(groups, |groups|)
    ensures gathered == Gathered(groups, lens)
  {
    hide RowsFor, Category, OwnRows;
    var last: map<Kind, seq<int>> := map[Greedy := [], Random := [], Beam := []];
    var startIdx, queryIdx, i := 0, 0, 0;
    assert lens[..0] == [];
    NothingGathered(groups, lens);
    forall k: Kind ensures k in last && last[k] == [] {
      match k case Greedy => case Random => case Beam =>
    }
    while i < |groups|
      invariant i <= |groups| && queryIdx == FirstSeq(groups, i) <= |lens| && startIdx == Sum(lens[..queryIdx])
      invariant forall k :: Within(Category(groups[..i], k), |groups|)
      invariant forall k :: k in last && last[k] == RowsFor(groups, lens, Category(groups[..i], k))
    {
      FirstSeqMono(groups, i + 1, |groups|);
      var rows;
      rows, startIdx := GroupRows(groups, lens, i, startIdx);
      forall k
        ensures Within(Category(groups[..i + 1], k), |groups|)
        ensures RowsFor(groups, lens, Category(groups[..i + 1], k)) ==
                RowsFor(groups, lens, Category(groups[..i], k)) +
                  if groups[i].kind == k then OwnRows(groups, lens, i) else []
      {
        CategoryNext(groups, i, k);
        if groups[i].kind == k {
          RowsForNext(groups, lens, Category(groups[..i], k), i);
        } else {
          assert Category(groups[..i], k) + [] == Category(groups[..i], k);
        }
      }
      var kind := groups[i].kind;
      last := last[kind := last[kind] + rows];
      queryIdx := queryIdx + |groups[i].ids|;
      i := i + 1;
    }
    assert groups[..i] == groups;
    gathered := last[Greedy] + (last[Random] + last[Beam]);
  }

  lemma NothingGathered(groups: seq<Group>, lens: seq<nat>)
    requires |lens| == FirstSeq(groups, |groups|)
    ensures forall k :: Category(groups[..0], k) == [] && Within(Category(groups[..0], k), |groups|)
    ensures RowsFor(groups, lens, []) == []
  {
  }

  method GroupRows(groups: seq<Group>, lens: seq<nat>, i: nat, start: nat) returns (rows: seq<int>, next: nat)
    requires i < |groups| && FirstSeq(groups, i + 1) <= |lens| && start == Sum(lens[..FirstSeq(groups, i)])
    ensures rows == OwnRows(groups, lens, i) && next == Sum(lens[..FirstSeq(groups, i + 1)])
  {
    var first := FirstSeq(groups, i);
    rows, next := [], start;
    var j := 0;
    while j < |groups[i].ids|
      invariant j <= |groups[i].ids| && next == Sum(lens[..first + j])
      invariant rows == OwnRows(groups, lens, i)[..j]
    {
      assert lens[..first + j + 1][..first + j] == lens[..first + j];
      next := next + lens[first + j];
      rows := rows + [next - 1];
      j := j + 1;
    }
  }

  /** The rows that `_sample` reads for each group: it slices the gathered rows by category and then
      by group, and files each group's results under its index.  They are the group's own rows. */
  method ReadRows(groups: seq<Group>, gathered: seq<int>, ghost lens: seq<nat>) returns (rows: seq<seq<int>>)
    requires |lens| == FirstSeq(groups, |groups|) && gathered == Gathered(groups, lens)
    ensures |rows| == |groups| && forall i: nat :: i < |groups| ==> OwnAt(groups, lens, rows, i)
  {
    hide RowsFor, OwnRows, Filed;
    var ids := Categorize(groups);
    var byGroup: map<nat, seq<int>> := map[];
    NothingFiled(groups, lens);
    var start := 0;
    ghost var random, beam := RowsFor(groups, lens, ids[Random]), RowsFor(groups, lens, ids[Beam]);
    assert gathered[0..] == gathered;
    byGroup, start := ReadCategory(groups, gathered, start, byGroup, ids[Greedy], lens, {}, random + beam);
    assert beam + [] == beam && {} + Members(ids[Greedy]) == Members(ids[Greedy]);
    byGroup, start := ReadCategory(groups, gathered, start, byGroup, ids[Random], lens, Members(ids[Greedy]), beam);
    byGroup, start := ReadCategory(groups, gathered, start, byGroup, ids[Beam], lens,
      Members(ids[Greedy]) + Members(ids[Random]), []);
    AllFiled(groups, lens, byGroup);
    forall i | 0 <= i < |groups| ensures i in byGroup {
      assert Own(groups, lens, byGroup, i);
    }
    rows := seq(|groups|, i requires 0 <= i < |groups| => byGroup[i]);
    forall i: nat | i < |groups| ensures OwnAt(groups, lens, rows, i) {
      assert Own(groups, lens, byGroup, i);
    }
  }

  ghost predicate Filed(groups: seq<Group>, lens: seq<nat>, byGroup: map<nat, seq<int>>, done: set<nat>) {
    && byGroup.Keys == done
    && (forall i :: i in done ==>
          i < |groups| && FirstSeq(groups, i + 1) <= |lens| && byGroup[i] == OwnRows(groups, lens, i))
  }

  function Members(ids: seq<nat>): set<nat> {
    set i | i in ids
  }

  /** Group `i` was given exactly its own sequences' last rows. */
  ghost predicate OwnAt(groups: seq<Group>, lens: seq<nat>, rows: seq<seq<int>>, i: nat) {
    i < |groups| && i < |rows| && FirstSeq(groups, i + 1) <= |lens| && rows[i] == OwnRows(groups, lens, i)
  }

  lemma NothingFiled(groups: seq<Group>, lens: seq<nat>)
    ensures Filed(groups, lens, map[], {})
  {
  }

  lemma AllFiled(groups: seq<Group>, lens: seq<nat>, byGroup: map<nat, seq<int>>)
    requires Filed(groups, lens, byGroup, Everyone(groups))
    ensures forall i: nat :: i < |groups| ==> Own(groups, lens, byGroup, i)
  {
    hide *;
    forall i: nat | i < |groups| ensures Own(groups, lens, byGroup, i) {
      InEveryone(groups, i);
      FiledAt(groups, lens, byGroup, Everyone(groups), i);
    }
  }

  function Everyone(groups: seq<Group>): set<nat> {
    Members(Category(groups, Greedy)) + Members(Category(groups, Random)) + Members(Category(groups, Beam))
  }

  lemma InEveryone(groups: seq<Group>, i: nat)
    requires i < |groups|
    ensures i in Everyone(groups)
  {
    assert i in Category(groups, groups[i].kind);
    match groups[i].kind case Greedy => case Random => case Beam =>
  }

  lemma FiledAt(groups: seq<Group>, lens: seq<nat>, byGroup: map<nat, seq<int>>, done: set<nat>, i: nat)
    requires Filed(groups, lens, byGroup, done) && i in done
    ensures Own(groups, lens, byGroup, i)
  {
  }

  ghost predicate Own(groups: seq<Group>, lens: seq<nat>, byGroup: map<nat, seq<int>>, i: nat) {
    i < |groups| && FirstSeq(groups, i + 1) <= |lens| && i in byGroup && byGroup[i] == OwnRows(groups, lens, i)
  }

  method ReadCategory(groups: seq<Group>, gathered: seq<int>, start: nat, byGroup0: map<nat, seq<int>>, ids: seq<nat>,
                      ghost lens: seq<nat>, ghost done: set<nat>, ghost rest: seq<int>)
    returns (byGroup: map<nat, seq<int>>, next: nat)
    requires |lens| == FirstSeq(groups, |groups|) && Within(ids, |groups|)
    requires start <= |gathered| && gathered[start..] == RowsFor(groups, lens, ids) + rest
    requires Filed(groups, lens, byGroup0, done)
    ensures Filed(groups, lens, byGroup, done + Members(ids))
    ensures next <= |gathered| && gathered[next..] == rest
  {
    hide RowsFor, Filed;
    byGroup, next := byGroup0, start;
    var k := 0;
    assert done + Members(ids[..0]) == done;
    NoRows(groups, lens, ids);
    while k < |ids|
      invariant k <= |ids| && Filed(groups, lens, byGroup, done + Members(ids[..k])) && Within(ids[..k], |groups|)
      invariant next == start + |RowsFor(groups, lens, ids[..k])| <= |gathered|
    {
      var i := ids[k];
      RowsSlice(groups, lens, ids, k);
      var n := |groups[i].ids|;
      SliceShift(gathered, start, RowsFor(groups, lens, ids), rest, next - start, n);
      FiledNext(groups, lens, byGroup, done, ids, k);
      byGroup := byGroup[i := gathered[next..next + n]];
      next := next + n;
      k := k + 1;
    }
    assert ids[..k] == ids;
  }

  lemma NoRows(groups: seq<Group>, lens: seq<nat>, ids: seq<nat>)
    requires |lens| == FirstSeq(groups, |groups|)
    ensures Within(ids[..0], |groups|) && RowsFor(groups, lens, ids[..0]) == []
  {
  }

  lemma SliceShift(g: seq<int>, start: nat, all: seq<int>, rest: seq<int>, from: nat, n: nat)
    requires start <= |g| && g[start..] == all + rest && from + n <= |all|
    ensures start + from + n <= |g| && g[start + from..start + from + n] == all[from..from + n]
  {
    assert g[start..][from..from + n] == g[start + from..start + from + n];
  }

  lemma FiledNext(groups: seq<Group>, lens: seq<nat>, byGroup: map<nat, seq<int>>, done: set<nat>, ids: seq<nat>,
                  k: nat)
    requires k < |ids| && ids[k] < |groups| && FirstSeq(groups, ids[k] + 1) <= |lens|
    requires Filed(groups, lens, byGroup, done + Members(ids[..k]))
    ensures Filed(groups, lens, byGroup[ids[k] := OwnRows(groups, lens, ids[k])], done + Members(ids[..k + 1]))
  {
    hide OwnRows, FirstSeq;
    assert ids[..k + 1] == ids[..k] + [ids[k]];
    assert done + Members(ids[..k + 1]) == done + Members(ids[..k]) + {ids[k]};
  }

  /** Where the rows of the `k`-th group of a category are. */
  lemma {:induction false} RowsSlice(groups: seq<Group>, lens: seq<nat>, ids: seq<nat>, k: nat)
    requires |lens| == FirstSeq(groups, |groups|) && k < |ids| && Within(ids, |groups|)
    ensures Within(ids[..k], |groups|) && Within(ids[..k + 1], |groups|)
    ensures ids[k] < |groups| && FirstSeq(groups, ids[k] + 1) <= |lens|
    ensures var all, a, n := RowsFor(groups, lens, ids), |RowsFor(groups, lens, ids[..k])|, |groups[ids[k]].ids|;
      a + n <= |all| && all[a..a + n] == OwnRows(groups, lens, ids[k]) && |RowsFor(groups, lens, ids[..k + 1])| == a + n
    decreases |ids|
  {
    var last := |ids| - 1;
    assert ids[k] in ids;
    WithinPrefix(ids, last, |groups|);
    WithinPrefix(ids, k, |groups|);
    WithinPrefix(ids, k + 1, |groups|);
    FirstSeqMono(groups, ids[k] + 1, |groups|);
    if k < last {
      RowsSlice(groups, lens, ids[..last], k);
      assert ids[..last][..k] == ids[..k] && ids[..last][..k + 1] == ids[..k + 1];
    } else {
      assert ids[..k + 1] == ids;
    }
  }
}
