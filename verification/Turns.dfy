/** One `_schedule` call, turn by turn: what the source decides about each target, and why. */
module Turns {
  import opened Basics
  import opened Blocks
  import opened Sequences
  import opened Layouts
  import opened System
  import opened Memory
  import opened Steps
  import opened Preemption
  import opened Rounds
  import opened Victims
  import opened Reclaims

  /** What is left of the three limits of one iteration. */
  datatype Limits = Limits(tokens: int, swapIn: int, swapOut: int)

  /** How making room for one request ended. */
  datatype Room = Fits | Postponed | Preempted

  /** One preemption: the state, the local lists and the swap-out limit before it, and how it went. */
  datatype Squeeze = Squeeze(s: Sys, r: Round, swapOut: int, nSwap: int, bySwap: seq<Id>, turns: nat)

  /** Effort room for one target: preemptions one after the other, up to `end`; then the state and the lists. */
  datatype Effort = Effort(steps: seq<Squeeze>, end: Squeeze, room: Room, s: Sys, r: Round)

  /** Victims are taken from the first of three lists that is not empty, as many as the missing blocks ask for. */
  ghost predicate SqueezedOnce(v: Variant, newBlocks: int, q: Squeeze, s': Sys, r': Round, swapOut': int) {
    var need := newBlocks - |q.s.pool.gpu.free|;
    && 0 < need <= q.swapOut && swapOut' == q.swapOut - q.nSwap
    && if q.r.pre != [] then
         && r' == q.r.(pre := r'.pre)
         && ReclaimedFrom(v, q.s, s', q.r.pre, need, r'.pre, q.nSwap, q.bySwap, q.turns)
       else if q.r.delayed != [] then
         && r' == q.r.(delayed := r'.delayed) && q.r.q.QRunning?
         && ReclaimedFrom(v, q.s, s', q.r.delayed, need, r'.delayed, q.nSwap, q.bySwap, q.turns)
       else
         && r' == q.r && q.r.q.QRunning? && q.s.running != []
         && ReclaimedFrom(v, q.s, s', q.s.running, need, s'.running, q.nSwap, q.bySwap, q.turns)
  }

  ghost predicate SqueezedAll(v: Variant, newBlocks: int, steps: seq<Squeeze>, s: Sys, r: Round, swapOut: int,
                              s': Sys, r': Round, swapOut': int)
  {
    if steps == [] then s' == s && r' == r && swapOut' == swapOut
    else
      var n := |steps| - 1;
      && SqueezedAll(v, newBlocks, steps[..n], s, r, swapOut, steps[n].s, steps[n].r, steps[n].swapOut)
      && SqueezedOnce(v, newBlocks, steps[n], s', r', swapOut')
  }

  /** The loop ends when the blocks are free, when more are missing than may be swapped out, when no victim is
      left, or with the target itself as the last victim. */
  ghost predicate MadeRoom(v: Variant, c: Id, newBlocks: int, selfPreempt: bool, m: Effort, s: Sys, r: Round,
                           swapOut: int, swapOut': int)
  {
    var e, need := m.end, newBlocks - |m.end.s.pool.gpu.free|;
    && SqueezedAll(v, newBlocks, m.steps, s, r, swapOut, e.s, e.r, e.swapOut) && swapOut' == e.swapOut
    && match m.room
       case Fits => need <= 0 && m.s == e.s && m.r == e.r
       case Postponed =>
         need > 0 && m.s == e.s && m.r == e.r && (need > e.swapOut || (e.r.pre == [] && !selfPreempt))
       case Preempted =>
         && 0 < need <= e.swapOut && selfPreempt && e.r.pre == [] && e.r.delayed == [] && e.s.running == []
         && m.r == e.r.(cur := None) && c in e.s.pool.tables
         && ReclaimedFrom(v, e.s, m.s, [c], |OnDevice(e.s.pool.tables[c], GPU)|, [], e.nSwap, e.bySwap, e.turns)
  }

  /** The target waits in the list of delayed ones, and nothing else changed. */
  ghost predicate PutBack(s: Sys, r: Round, c: Id, s': Sys, r': Round) {
    s' == s.(place := s.place[c := AtDelayed]) && r' == r.(delayed := r.delayed + [c], cur := None)
  }

  /** The target joined the batch with its planned work, and its blocks were taken. */
  ghost predicate PutIn(s: Sys, r: Round, c: Id, planned: SeqRec, need: int, s': Sys, r': Round) {
    && s' == s.(pool := s'.pool, data := s.data[c := planned.(status := Status.Running)],
                place := s.place[c := AtScheduled])
    && c in s'.pool.tables && s'.pool.tables == s.pool.tables[c := s'.pool.tables[c]]
    && |s'.pool.gpu.free| == |s.pool.gpu.free| - need
    && r' == r.(scheduled := r.scheduled + [c], tokens := r.tokens + planned.runningInflight, cur := None)
  }

  /** What happens to the target once room was made for it, or not. */
  ghost predicate SettledAs(c: Id, planned: SeqRec, need: int, m: Effort, s': Sys, r': Round, swapIn: int,
                            swapIn': int)
  {
    match m.room
    case Fits => PutIn(m.s, m.r, c, planned, need, s', r') && swapIn' == swapIn - planned.resumeSwap
    case Postponed => PutBack(m.s, m.r, c, s', r') && swapIn' == swapIn
    case Preempted => s' == m.s && r' == m.r && swapIn' == swapIn
  }

  /** The target is to swap `n` blocks in and forward `t` tokens: the checks that end the call, then the
      preemptions, then its place. */
  ghost predicate Tried(v: Variant, f: Flags, s: Sys, r: Round, c: Id, n: int, t: int, lim: Limits, m: Effort,
                        s': Sys, r': Round, lim': Limits, stop: bool)
  {
    c in s.data && lim'.tokens == lim.tokens && (
      var planned, need, free := s.data[c].Populate(0, n, t), Need(s, c, n, t), |s.pool.gpu.free|;
      var s1 := s.(data := s.data[c := planned]);
      if need > free && (!f.preemptIfNeed || (r.pre == [] && !f.selfPreempt)
           || (!f.selfPreempt && need - free > lim.swapOut && f.stopIfNoSwap)) then
        PutBack(s1, r, c, s', r') && lim' == lim && stop
      else
        && !stop && MadeRoom(v, c, need, f.selfPreempt, m, s1, r, lim.swapOut, lim'.swapOut)
        && SettledAs(c, planned, need, m, s', r', lim.swapIn, lim'.swapIn))
  }

  /** What the source decides about target `c` in hand, by its own checks in their order. */
  ghost predicate Judged(v: Variant, f: Flags, s: Sys, r: Round, c: Id, lim: Limits, m: Effort,
                         s': Sys, r': Round, lim': Limits, stop: bool)
  {
    c in s.data && (
      var d := s.data[c];
      var n := if d.swapLength < lim.swapIn then d.swapLength else lim.swapIn;
      var left := lim.tokens - r.tokens;
      var t := if n < d.swapLength then 0 else if d.inflight < left then d.inflight else left;
      if s.limit < d.Len() then
        && s' == s.(place := s.place[c := AtDone], data := s.data[c := d.(status := FinishedIgnored)])
        && r' == r.(ignored := r.ignored + [c], cur := None) && lim' == lim && !stop
      else if f.maxSequences < 1 then PutBack(s, r, c, s', r') && lim' == lim && stop
      else if n <= 0 && t <= 0 then PutBack(s, r, c, s', r') && lim' == lim && stop == f.stopIfBatchLimit
      else Tried(v, f, s, r, c, n, t, lim, m, s', r', lim', stop))
  }

  lemma SqueezedFrom(v: Variant, need: int, q: Squeeze, s': Sys, r': Round, rest: seq<Id>, swapOut': int)
    requires need > 0 && swapOut' == q.swapOut - q.nSwap && (q.r.pre == [] ==> q.r.q.QRunning?)
    requires var victims := if q.r.pre != [] then q.r.pre else if q.r.delayed != [] then q.r.delayed else q.s.running;
      victims != [] && ReclaimedFrom(v, q.s, s', victims, need, rest, q.nSwap, q.bySwap, q.turns)
    requires r' == if q.r.pre != [] then q.r.(pre := rest)
                   else if q.r.delayed != [] then q.r.(delayed := rest) else q.r
    requires q.r.pre == [] && q.r.delayed == [] ==> s'.running == rest
    ensures need <= q.swapOut ==> SqueezedOnce(v, need + |q.s.pool.gpu.free|, q, s', r', swapOut')
  {
    hide ReclaimedFrom;
  }

  lemma SqueezedNone(v: Variant, newBlocks: int, s: Sys, r: Round, swapOut: int)
    ensures SqueezedAll(v, newBlocks, [], s, r, swapOut, s, r, swapOut)
  {
  }

  lemma SqueezedNext(v: Variant, newBlocks: int, steps: seq<Squeeze>, s: Sys, r: Round, swapOut: int, q: Squeeze,
                     s': Sys, r': Round, swapOut': int)
    requires SqueezedAll(v, newBlocks, steps, s, r, swapOut, q.s, q.r, q.swapOut)
    requires SqueezedOnce(v, newBlocks, q, s', r', swapOut')
    ensures SqueezedAll(v, newBlocks, steps + [q], s, r, swapOut, s', r', swapOut')
  {
    hide SqueezedOnce;
    assert (steps + [q])[..|steps|] == steps;
  }

  lemma RoomFits(v: Variant, c: Id, newBlocks: int, selfPreempt: bool, steps: seq<Squeeze>, s: Sys, r: Round,
                 swapOut: int, s': Sys, r': Round, swapOut': int)
    returns (m: Effort)
    requires SqueezedAll(v, newBlocks, steps, s, r, swapOut, s', r', swapOut') && newBlocks <= |s'.pool.gpu.free|
    ensures m.room.Fits? && m.s == s' && m.r == r' && MadeRoom(v, c, newBlocks, selfPreempt, m, s, r, swapOut, swapOut')
  {
    hide SqueezedAll;
    m := Effort(steps, Squeeze(s', r', swapOut', 0, [], 0), Fits, s', r');
  }

  lemma RoomPostponed(v: Variant, c: Id, newBlocks: int, selfPreempt: bool, steps: seq<Squeeze>, s: Sys, r: Round,
                      swapOut: int, s': Sys, r': Round, swapOut': int)
    returns (m: Effort)
    requires SqueezedAll(v, newBlocks, steps, s, r, swapOut, s', r', swapOut') && newBlocks > |s'.pool.gpu.free|
    requires newBlocks - |s'.pool.gpu.free| > swapOut' || (r'.pre == [] && !selfPreempt)
    ensures m.room.Postponed? && m.s == s' && m.r == r'
    ensures MadeRoom(v, c, newBlocks, selfPreempt, m, s, r, swapOut, swapOut')
  {
    hide SqueezedAll;
    m := Effort(steps, Squeeze(s', r', swapOut', 0, [], 0), Postponed, s', r');
  }

  lemma RoomPreempted(v: Variant, c: Id, newBlocks: int, selfPreempt: bool, steps: seq<Squeeze>, s: Sys, r: Round,
                      swapOut: int, e: Squeeze, s': Sys)
    returns (m: Effort)
    requires SqueezedAll(v, newBlocks, steps, s, r, swapOut, e.s, e.r, e.swapOut)
    requires 0 < newBlocks - |e.s.pool.gpu.free| <= e.swapOut && selfPreempt
    requires e.r.pre == [] && e.r.delayed == [] && e.s.running == [] && c in e.s.pool.tables
    requires ReclaimedFrom(v, e.s, s', [c], |OnDevice(e.s.pool.tables[c], GPU)|, [], e.nSwap, e.bySwap, e.turns)
    ensures m.room.Preempted? && m.s == s' && m.r == e.r.(cur := None)
    ensures MadeRoom(v, c, newBlocks, selfPreempt, m, s, r, swapOut, e.swapOut)
  {
    hide SqueezedAll, ReclaimedFrom, OnDevice;
    m := Effort(steps, e, Preempted, s', e.r.(cur := None));
  }

  lemma PutInIs(s: Sys, r: Round, c: Id, planned: SeqRec, need: int, s1: Sys, s': Sys, r': Round)
    requires s1 == s.(pool := s1.pool) && c in s1.pool.tables && s1.pool.tables == s.pool.tables[c := s1.pool.tables[c]]
    requires s' == s1.(data := s1.data[c := planned.(status := Status.Running)], place := s1.place[c := AtScheduled])
    requires |s1.pool.gpu.free| == |s.pool.gpu.free| - need
    requires r' == r.(scheduled := r.scheduled + [c], tokens := r.tokens + planned.runningInflight, cur := None)
    ensures PutIn(s, r, c, planned, need, s', r')
  {
  }

  lemma SettledFrom(c: Id, planned: SeqRec, need: int, m: Effort, s': Sys, r': Round, swapIn: int, swapIn': int)
    requires match m.room
      case Fits => PutIn(m.s, m.r, c, planned, need, s', r') && swapIn' == swapIn - planned.resumeSwap
      case Postponed => PutBack(m.s, m.r, c, s', r') && swapIn' == swapIn
      case Preempted => s' == m.s && r' == m.r && swapIn' == swapIn
    ensures SettledAs(c, planned, need, m, s', r', swapIn, swapIn')
  {
  }

  ghost function NoEffort(s: Sys, r: Round): Effort {
    Effort([], Squeeze(s, r, 0, 0, [], 0), Postponed, s, r)
  }

  lemma TriedLater(v: Variant, f: Flags, s: Sys, r: Round, c: Id, n: int, t: int, lim: Limits, s1: Sys, s': Sys,
                   r': Round)
    returns (m: Effort)
    requires c in s.data && s1 == s.(data := s.data[c := s.data[c].Populate(0, n, t)])
    requires MustWait(|s.pool.gpu.free|, f, Need(s, c, n, t), r.pre, lim.swapOut) && PutBack(s1, r, c, s', r')
    ensures Tried(v, f, s, r, c, n, t, lim, m, s', r', lim, true)
  {
    m := NoEffort(s', r');
  }

  lemma TriedNow(v: Variant, f: Flags, s: Sys, r: Round, c: Id, n: int, t: int, lim: Limits, m: Effort, s1: Sys,
                 s': Sys, r': Round, lim': Limits)
    requires c in s.data && s1 == s.(data := s.data[c := s.data[c].Populate(0, n, t)]) && lim'.tokens == lim.tokens
    requires !MustWait(|s.pool.gpu.free|, f, Need(s, c, n, t), r.pre, lim.swapOut)
    requires MadeRoom(v, c, Need(s, c, n, t), f.selfPreempt, m, s1, r, lim.swapOut, lim'.swapOut)
    requires SettledAs(c, s1.data[c], Need(s, c, n, t), m, s', r', lim.swapIn, lim'.swapIn)
    ensures Tried(v, f, s, r, c, n, t, lim, m, s', r', lim', false)
  {
    hide MadeRoom, SettledAs, Need;
  }

  lemma JudgedTooLong(v: Variant, f: Flags, s: Sys, r: Round, c: Id, lim: Limits, s': Sys, r': Round)
    returns (m: Effort)
    requires c in s.data && s.limit < s.data[c].Len() && r' == r.(ignored := r.ignored + [c], cur := None)
    requires s' == s.(place := s.place[c := AtDone], data := s.data[c := s.data[c].(status := FinishedIgnored)])
    ensures Judged(v, f, s, r, c, lim, m, s', r', lim, false)
  {
    m := NoEffort(s', r');
  }

  lemma JudgedFull(v: Variant, f: Flags, s: Sys, r: Round, c: Id, lim: Limits, s': Sys, r': Round)
    returns (m: Effort)
    requires c in s.data && s.data[c].Len() <= s.limit && f.maxSequences < 1 && PutBack(s, r, c, s', r')
    ensures Judged(v, f, s, r, c, lim, m, s', r', lim, true)
  {
    m := NoEffort(s', r');
  }

  lemma JudgedIdle(v: Variant, f: Flags, s: Sys, r: Round, c: Id, lim: Limits, s': Sys, r': Round)
    returns (m: Effort)
    requires c in s.data && s.data[c].Len() <= s.limit && f.maxSequences >= 1 && PutBack(s, r, c, s', r')
    requires SwapPlan(s.data[c], lim.swapIn) <= 0 && TokenPlan(s.data[c], lim.swapIn, lim.tokens - r.tokens) <= 0
    requires s.data[c].swapLength >= 0 && s.data[c].inflight >= 1
    ensures Judged(v, f, s, r, c, lim, m, s', r', lim, f.stopIfBatchLimit)
  {
    m := NoEffort(s', r');
  }

  lemma JudgedTried(v: Variant, f: Flags, s: Sys, r: Round, c: Id, lim: Limits, m: Effort, s': Sys, r': Round,
                    lim': Limits, stop: bool)
    requires c in s.data && s.data[c].Len() <= s.limit && f.maxSequences >= 1
    requires SwapPlan(s.data[c], lim.swapIn) > 0 || TokenPlan(s.data[c], lim.swapIn, lim.tokens - r.tokens) > 0
    requires Tried(v, f, s, r, c, SwapPlan(s.data[c], lim.swapIn),
      TokenPlan(s.data[c], lim.swapIn, lim.tokens - r.tokens), lim, m, s', r', lim', stop)
    ensures Judged(v, f, s, r, c, lim, m, s', r', lim', stop)
  {
    hide Tried;
  }

  // ---- All turns of one call

  /** One turn: the state, the local lists and the limits before it, the target popped, and how room was made. */
  datatype Turn = Turn(s: Sys, r: Round, lim: Limits, popped: Sys, c: Id, m: Effort)

  ghost predicate Turned(v: Variant, f: Flags, t: Turn, s': Sys, r': Round, lim': Limits, stop: bool) {
    && t.r.cur.None? && TargetsOf(t.s, f.q) != [] && t.c == TargetsOf(t.s, f.q)[0]
    && PopStep(t.s, t.popped, t.c, f.q) && Onward(t.s, t.r, s', r')
    && Judged(v, f, t.popped, t.r.(cur := Some(t.c)), t.c, t.lim, t.m, s', r', lim', stop)
  }

  /** The turns of one call, one after the other; only the last one may end it. */
  ghost predicate Trail(v: Variant, f: Flags, turns: seq<Turn>, s: Sys, r: Round, lim: Limits,
                        s': Sys, r': Round, lim': Limits, stop: bool)
  {
    if turns == [] then s' == s && r' == r && lim' == lim && !stop
    else
      var n := |turns| - 1;
      && Trail(v, f, turns[..n], s, r, lim, turns[n].s, turns[n].r, turns[n].lim, false)
      && Turned(v, f, turns[n], s', r', lim', stop)
  }

  /** A `_schedule` call: its turns, the state and the limits after the last one, and whether that ended it. */
  datatype Call = Call(turns: seq<Turn>, end: Sys, lim: Limits, stopped: bool)

  /** Delayed targets forget their planned work. */
  ghost predicate DelayedCleared(s: Sys, s': Sys, delayed: seq<Id>) {
    && s' == s.(data := s'.data) && s'.data.Keys == s.data.Keys
    && forall x :: x in s.data ==> s'.data[x] == if x in delayed then s.data[x].Cleared() else s.data[x]
  }

  /** The call over list `f.q` with preemption targets `pre`, from state `s` with limits `lim`: every target has its
      turn until the list is empty or a turn ends the call. */
  ghost predicate Called(v: Variant, f: Flags, pre: seq<Id>, call: Call, s: Sys, lim: Limits, s': Sys, r: Round,
                         lim': Limits)
  {
    && Trail(v, f, call.turns, s, Round(f.q, [], [], [], pre, 0, None), lim, call.end, r, call.lim, call.stopped)
    && (call.stopped || TargetsOf(call.end, f.q) == [])
    && DelayedCleared(call.end, s', r.delayed) && Onward(call.end, r, s', r)
    && lim' == call.lim.(tokens := call.lim.tokens - r.tokens)
  }

  lemma TrailNone(v: Variant, f: Flags, s: Sys, r: Round, lim: Limits)
    ensures Trail(v, f, [], s, r, lim, s, r, lim, false)
  {
  }

  lemma TrailNext(v: Variant, f: Flags, turns: seq<Turn>, s: Sys, r: Round, lim: Limits, t: Turn, s': Sys, r': Round,
                  lim': Limits, stop: bool)
    requires Trail(v, f, turns, s, r, lim, t.s, t.r, t.lim, false) && Turned(v, f, t, s', r', lim', stop)
    ensures Trail(v, f, turns + [t], s, r, lim, s', r', lim', stop)
  {
    hide Turned;
    assert (turns + [t])[..|turns|] == turns;
  }

  lemma TurnedIs(v: Variant, f: Flags, t: Turn, s': Sys, r1: Round, r': Round, lim': Limits, stop: bool)
    requires t.r.cur.None? && TargetsOf(t.s, f.q) != [] && t.c == TargetsOf(t.s, f.q)[0]
    requires PopStep(t.s, t.popped, t.c, f.q) && Onward(t.s, t.r, t.popped, r1) && Onward(t.popped, r1, s', r')
    requires r1 == t.r.(cur := Some(t.c)) && Judged(v, f, t.popped, r1, t.c, t.lim, t.m, s', r', lim', stop)
    ensures Turned(v, f, t, s', r', lim', stop)
  {
    hide PopStep, Onward, Judged, TargetsOf;
    OnwardTrans(t.s, t.r, t.popped, r1, s', r');
  }

  lemma CalledIs(v: Variant, f: Flags, pre: seq<Id>, call: Call, s: Sys, lim: Limits, s': Sys, r: Round, lim': Limits)
    requires Trail(v, f, call.turns, s, Opening(f.q, pre), lim, call.end, r, call.lim, call.stopped)
    requires call.stopped || TargetsOf(call.end, f.q) == []
    requires DelayedCleared(call.end, s', r.delayed) && Onward(call.end, r, s', r)
    requires lim' == call.lim.(tokens := call.lim.tokens - r.tokens)
    ensures Called(v, f, pre, call, s, lim, s', r, lim')
  {
    hide Trail, TargetsOf, DelayedCleared, Onward;
  }

  lemma DelayedNone(s: Sys)
    ensures DelayedCleared(s, s, [])
  {
  }

  lemma DelayedNext(s: Sys, s1: Sys, s': Sys, delayed: seq<Id>, x: Id)
    requires DelayedCleared(s, s1, delayed) && x in s1.data
    requires s' == s1.(data := s1.data[x := s1.data[x].Cleared()])
    ensures DelayedCleared(s, s', delayed + [x])
  {
    forall y | y in s.data
      ensures s'.data[y] == if y in delayed + [x] then s.data[y].Cleared() else s.data[y]
    {
      assert y in s1.data;
      assert s.data[y].Cleared().Cleared() == s.data[y].Cleared();
    }
  }
}
