/** What the turns of a `_schedule` call amount to: who is scheduled, who waits, who leaves, and why. */
module TurnLaws {
  import opened Basics
  import opened Blocks
  import opened Sequences
  import opened Layouts
  import opened System
  import opened Memory
  import opened Steps
  import opened Preemption
  import opened Rounds
  import opened Victims
  import opened Reclaims
  import opened Turns

  /** The blocks that target `t.c` swaps in, and the tokens that it forwards, if it is scheduled. */
  function Swapping(d: SeqRec, lim: Limits): int {
    if d.swapLength < lim.swapIn then d.swapLength else lim.swapIn
  }

  function Forwarding(d: SeqRec, lim: Limits, batched: int): int {
    if Swapping(d, lim) < d.swapLength then 0
    else if d.inflight < lim.tokens - batched then d.inflight else lim.tokens - batched
  }

  ghost function Target(t: Turn): SeqRec
    requires t.c in t.popped.data
  {
    t.popped.data[t.c]
  }

  ghost function Asks(t: Turn): int {
    if t.c in t.popped.data
    then Need(t.popped, t.c, Swapping(Target(t), t.lim), Forwarding(Target(t), t.lim, t.r.tokens))
    else 0
  }

  /** Within the prompt limit, and with something to do within the other limits. */
  ghost predicate HasWork(f: Flags, t: Turn) {
    && t.c in t.popped.data && Target(t).Len() <= t.popped.limit && f.maxSequences >= 1
    && (Swapping(Target(t), t.lim) > 0 || Forwarding(Target(t), t.lim, t.r.tokens) > 0)
  }

  /** Its blocks are free when it is its turn. */
  ghost predicate FitsAt(f: Flags, t: Turn) {
    HasWork(f, t) && Asks(t) <= |t.popped.pool.gpu.free|
  }

  /** Why a target waits: no request may be scheduled, there is nothing to do within the limits, its blocks are not
      free and no victim may be taken for them, or they were still not free after victims were taken. */
  ghost predicate MustPutOff(f: Flags, t: Turn) {
    && t.c in t.popped.data && Target(t).Len() <= t.popped.limit
    && (|| f.maxSequences < 1
        || (Swapping(Target(t), t.lim) <= 0 && Forwarding(Target(t), t.lim, t.r.tokens) <= 0)
        || (Asks(t) > |t.popped.pool.gpu.free| &&
             (|| !f.preemptIfNeed || (t.r.pre == [] && !f.selfPreempt)
              || (!f.selfPreempt && Asks(t) - |t.popped.pool.gpu.free| > t.lim.swapOut && f.stopIfNoSwap)))
        || (Asks(t) > |t.m.end.s.pool.gpu.free| &&
             (|| Asks(t) - |t.m.end.s.pool.gpu.free| > t.m.end.swapOut
              || (t.m.end.r.pre == [] && !f.selfPreempt))))
  }

  ghost predicate TooLong(t: Turn) {
    t.c in t.popped.data && Target(t).Len() > t.popped.limit
  }

  // ---- One turn

  lemma {:induction false} SqueezedSame(v: Variant, newBlocks: int, steps: seq<Squeeze>, s: Sys, r: Round, swapOut: int,
                                        s': Sys, r': Round, swapOut': int)
    requires SqueezedAll(v, newBlocks, steps, s, r, swapOut, s', r', swapOut')
    ensures r'.scheduled == r.scheduled && r'.ignored == r.ignored && r'.tokens == r.tokens && r'.q == r.q
    ensures r'.delayed <= r.delayed
    ensures steps != [] ==> newBlocks > |s.pool.gpu.free|
  {
    hide ReclaimedFrom;
    if steps != [] {
      var n := |steps| - 1;
      SqueezedSame(v, newBlocks, steps[..n], s, r, swapOut, steps[n].s, steps[n].r, steps[n].swapOut);
      FewerDelayed(v, newBlocks, steps[n], s', r', swapOut');
    }
  }

  lemma FewerDelayed(v: Variant, newBlocks: int, q: Squeeze, s': Sys, r': Round, swapOut': int)
    requires SqueezedOnce(v, newBlocks, q, s', r', swapOut')
    ensures r'.delayed <= q.r.delayed
  {
    hide ReclaimAfter, AllReclaimed, SwappedBy;
    if q.r.pre == [] && q.r.delayed != [] {
      var c := Reclaim(q.s.swapped + q.bySwap, q.r.delayed, newBlocks - |q.s.pool.gpu.free|, |q.s.pool.cpu.free|);
      ReclaimedStart(v, q.s.pool.tables, c);
      ReclaimShrinks(v, q.s.pool.tables, c, 0, q.turns);
    }
  }

  lemma ReclaimedStart(v: Variant, tables: map<Id, Table>, c: Reclaim)
    ensures ReclaimAfter(v, tables, c, 0) == c
  {
  }

  /** What a turn does to the local lists. */
  lemma TurnLists(v: Variant, f: Flags, t: Turn, s': Sys, r': Round, lim': Limits, stop: bool)
    requires Turned(v, f, t, s', r', lim', stop)
    ensures r'.scheduled == t.r.scheduled || r'.scheduled == t.r.scheduled + [t.c]
    ensures forall x :: x in r'.delayed ==> x in t.r.delayed || (x == t.c && MustPutOff(f, t))
    ensures r'.ignored == if TooLong(t) then t.r.ignored + [t.c] else t.r.ignored
    ensures r'.scheduled != t.r.scheduled ==> HasWork(f, t)
  {
    hide SqueezedAll, ReclaimedFrom, Onward, PopStep, TargetsOf, Need;
    if t.c in t.popped.data && Target(t).Len() <= t.popped.limit && HasWork(f, t) && !WaitsAtOnce(f, t) {
      TriedLists(v, f, t, s', r', lim', stop);
    }
  }

  ghost predicate WaitsAtOnce(f: Flags, t: Turn) {
    Asks(t) > |t.popped.pool.gpu.free| &&
      (|| !f.preemptIfNeed || (t.r.pre == [] && !f.selfPreempt)
       || (!f.selfPreempt && Asks(t) - |t.popped.pool.gpu.free| > t.lim.swapOut && f.stopIfNoSwap))
  }

  lemma TriedLists(v: Variant, f: Flags, t: Turn, s': Sys, r': Round, lim': Limits, stop: bool)
    requires Turned(v, f, t, s', r', lim', stop) && HasWork(f, t) && !WaitsAtOnce(f, t)
    ensures r'.scheduled == if t.m.room.Fits? then t.r.scheduled + [t.c] else t.r.scheduled
    ensures forall x :: x in r'.delayed ==> x in t.r.delayed || (x == t.c && MustPutOff(f, t))
    ensures r'.ignored == t.r.ignored
  {
    hide SqueezedAll, ReclaimedFrom, Onward, PopStep, TargetsOf, Need;
    var d := Target(t);
    var planned := d.Populate(0, Swapping(d, t.lim), Forwarding(d, t.lim, t.r.tokens));
    var s1, r1 := t.popped.(data := t.popped.data[t.c := planned]), t.r.(cur := Some(t.c));
    assert MadeRoom(v, t.c, Asks(t), f.selfPreempt, t.m, s1, r1, t.lim.swapOut, lim'.swapOut);
    SqueezedSame(v, Asks(t), t.m.steps, s1, r1, t.lim.swapOut, t.m.end.s, t.m.end.r, t.m.end.swapOut);
  }

  /** A target whose blocks are free is scheduled, with exactly its planned work, and takes nothing else. */
  lemma FitsTurn(v: Variant, f: Flags, t: Turn, s': Sys, r': Round, lim': Limits, stop: bool)
    requires Turned(v, f, t, s', r', lim', stop) && FitsAt(f, t)
    ensures r'.scheduled == t.r.scheduled + [t.c] && !stop && t.c in s'.data && InBatch(s'.place, t.c)
    ensures s'.data[t.c] == Target(t).Populate(0, Swapping(Target(t), t.lim),
      Forwarding(Target(t), t.lim, t.r.tokens)).(status := Status.Running)
  {
    hide SqueezedAll, ReclaimedFrom, Onward, PopStep, TargetsOf, Need;
    var d := Target(t);
    var planned := d.Populate(0, Swapping(d, t.lim), Forwarding(d, t.lim, t.r.tokens));
    var s1, r1 := t.popped.(data := t.popped.data[t.c := planned]), t.r.(cur := Some(t.c));
    assert MadeRoom(v, t.c, Asks(t), f.selfPreempt, t.m, s1, r1, t.lim.swapOut, lim'.swapOut);
    SqueezedSame(v, Asks(t), t.m.steps, s1, r1, t.lim.swapOut, t.m.end.s, t.m.end.r, t.m.end.swapOut);
    NoSteps(v, Asks(t), t.m.steps, s1, r1, t.lim.swapOut, t.m.end.s, t.m.end.r, t.m.end.swapOut);
  }

  lemma NoSteps(v: Variant, newBlocks: int, steps: seq<Squeeze>, s: Sys, r: Round, swapOut: int,
                s': Sys, r': Round, swapOut': int)
    requires SqueezedAll(v, newBlocks, steps, s, r, swapOut, s', r', swapOut') && steps == []
    ensures s' == s && r' == r
  {
  }

  // ---- All turns

  /** The state and the lists after turn `k`. */
  ghost function AfterTurn(turns: seq<Turn>, k: nat, s: Sys, r: Round, lim: Limits): (Sys, Round, Limits) {
    if k + 1 < |turns| then (turns[k + 1].s, turns[k + 1].r, turns[k + 1].lim) else (s, r, lim)
  }

  lemma {:induction false} TurnAt(v: Variant, f: Flags, turns: seq<Turn>, s: Sys, r: Round, lim: Limits,
                                  s': Sys, r': Round, lim': Limits, stop: bool, k: nat)
    requires Trail(v, f, turns, s, r, lim, s', r', lim', stop) && k < |turns|
    ensures var a := AfterTurn(turns, k, s', r', lim');
      Turned(v, f, turns[k], a.0, a.1, a.2, k + 1 == |turns| && stop)
    decreases |turns|
  {
    hide Turned;
    var n := |turns| - 1;
    if k < n {
      TurnAt(v, f, turns[..n], s, r, lim, turns[n].s, turns[n].r, turns[n].lim, false, k);
    }
  }

  /** Once scheduled, a request stays so, with the same work. */
  lemma {:induction false} ScheduledStays(v: Variant, f: Flags, turns: seq<Turn>, s: Sys, r: Round, lim: Limits,
                                          s': Sys, r': Round, lim': Limits, stop: bool, k: nat, x: Id)
    requires Trail(v, f, turns, s, r, lim, s', r', lim', stop) && k < |turns|
    requires var a := AfterTurn(turns, k, s', r', lim'); x in a.1.scheduled && x in a.0.data && InBatch(a.0.place, x)
    ensures var a := AfterTurn(turns, k, s', r', lim');
      x in r'.scheduled && x in s'.data && s'.data[x] == a.0.data[x] && InBatch(s'.place, x)
    decreases |turns|
  {
    hide Turned;
    var n := |turns| - 1;
    if k < n {
      ScheduledStays(v, f, turns[..n], s, r, lim, turns[n].s, turns[n].r, turns[n].lim, false, k, x);
      TurnLists(v, f, turns[n], s', r', lim', stop);
      TurnFrozen(v, f, turns[n], s', r', lim', stop, x);
    }
  }

  lemma TurnFrozen(v: Variant, f: Flags, t: Turn, s': Sys, r': Round, lim': Limits, stop: bool, x: Id)
    requires Turned(v, f, t, s', r', lim', stop) && InBatch(t.s.place, x)
    ensures x in t.s.data && x in s'.data && s'.data[x] == t.s.data[x] && InBatch(s'.place, x)
  {
    hide Judged, PopStep, TargetsOf;
    assert FrozenAt(t.s, s', x);
  }

  /** Every target within the prompt limit that has planned work, and whose blocks are free at its turn, is scheduled
      with exactly that work. */
  lemma FitsIsScheduled(v: Variant, f: Flags, pre: seq<Id>, call: Call, s: Sys, lim: Limits, s': Sys, r: Round,
                        lim': Limits, k: nat)
    requires Called(v, f, pre, call, s, lim, s', r, lim') && k < |call.turns| && FitsAt(f, call.turns[k])
    ensures var t := call.turns[k];
      && t.c in r.scheduled && t.c in s'.data
      && s'.data[t.c] == Target(t).Populate(0, Swapping(Target(t), t.lim),
           Forwarding(Target(t), t.lim, t.r.tokens)).(status := Status.Running)
      && InBatch(s'.place, t.c)
  {
    hide *;
    var t, r0 := call.turns[k], Round(f.q, [], [], [], pre, 0, None);
    CalledParts(v, f, pre, call, s, lim, s', r, lim');
    TurnAt(v, f, call.turns, s, r0, lim, call.end, r, call.lim, call.stopped, k);
    var a := AfterTurn(call.turns, k, call.end, r, call.lim);
    FitsTurn(v, f, t, a.0, a.1, a.2, k + 1 == |call.turns| && call.stopped);
    assert t.c == (t.r.scheduled + [t.c])[|t.r.scheduled|];
    ScheduledStays(v, f, call.turns, s, r0, lim, call.end, r, call.lim, call.stopped, k, t.c);
    EndKeeps(call.end, r, s', t.c);
  }

  lemma EndKeeps(s: Sys, r: Round, s': Sys, x: Id)
    requires Onward(s, r, s', r) && InBatch(s.place, x)
    ensures x in s.data && x in s'.data && s'.data[x] == s.data[x] && InBatch(s'.place, x)
  {
    assert FrozenAt(s, s', x);
  }

  lemma CalledParts(v: Variant, f: Flags, pre: seq<Id>, call: Call, s: Sys, lim: Limits, s': Sys, r: Round,
                    lim': Limits)
    requires Called(v, f, pre, call, s, lim, s', r, lim')
    ensures Trail(v, f, call.turns, s, Round(f.q, [], [], [], pre, 0, None), lim, call.end, r, call.lim, call.stopped)
    ensures call.stopped || TargetsOf(call.end, f.q) == []
    ensures Onward(call.end, r, s', r)
  {
  }

  /** Where every entry of the local lists comes from. */
  ghost predicate Reasoned(f: Flags, turns: seq<Turn>, r: Round) {
    && (forall x :: x in r.scheduled ==> exists k :: 0 <= k < |turns| && turns[k].c == x && HasWork(f, turns[k]))
    && (forall x :: x in r.delayed ==> exists k :: 0 <= k < |turns| && turns[k].c == x && MustPutOff(f, turns[k]))
    && (forall x :: x in r.ignored <==> exists k :: 0 <= k < |turns| && turns[k].c == x && TooLong(turns[k]))
  }

  lemma {:induction false} TrailReasoned(v: Variant, f: Flags, turns: seq<Turn>, s: Sys, r: Round, lim: Limits,
                                         s': Sys, r': Round, lim': Limits, stop: bool)
    requires Trail(v, f, turns, s, r, lim, s', r', lim', stop) && r.scheduled == r.delayed == r.ignored == []
    ensures Reasoned(f, turns, r')
  {
    hide Turned, HasWork, MustPutOff, TooLong;
    if turns != [] {
      var n := |turns| - 1;
      TrailReasoned(v, f, turns[..n], s, r, lim, turns[n].s, turns[n].r, turns[n].lim, false);
      TurnLists(v, f, turns[n], s', r', lim', stop);
      ReasonedNext(f, turns, turns[n].r, r');
    }
  }

  lemma ReasonedNext(f: Flags, turns: seq<Turn>, r: Round, r': Round)
    requires turns != [] && Reasoned(f, turns[..|turns| - 1], r)
    requires var t := turns[|turns| - 1];
      && (r'.scheduled == r.scheduled || (r'.scheduled == r.scheduled + [t.c] && HasWork(f, t)))
      && (forall x :: x in r'.delayed ==> x in r.delayed || (x == t.c && MustPutOff(f, t)))
      && r'.ignored == if TooLong(t) then r.ignored + [t.c] else r.ignored
    ensures Reasoned(f, turns, r')
  {
    hide HasWork, MustPutOff, TooLong;
    var n := |turns| - 1;
    forall x | x in r'.scheduled ensures exists k :: 0 <= k < |turns| && turns[k].c == x && HasWork(f, turns[k]) {
      if x in r.scheduled {
        var k :| 0 <= k < n && turns[..n][k].c == x && HasWork(f, turns[..n][k]);
        assert turns[k].c == x;
      } else {
        assert turns[n].c == x;
      }
    }
    forall x | x in r'.delayed ensures exists k :: 0 <= k < |turns| && turns[k].c == x && MustPutOff(f, turns[k]) {
      if x in r.delayed {
        var k :| 0 <= k < n && turns[..n][k].c == x && MustPutOff(f, turns[..n][k]);
        assert turns[k].c == x;
      } else {
        assert turns[n].c == x;
      }
    }
    IgnoredNext(f, turns, r, r');
  }

  lemma IgnoredNext(f: Flags, turns: seq<Turn>, r: Round, r': Round)
    requires turns != [] && Reasoned(f, turns[..|turns| - 1], r)
    requires var t := turns[|turns| - 1]; r'.ignored == if TooLong(t) then r.ignored + [t.c] else r.ignored
    ensures forall x :: x in r'.ignored <==> exists k :: 0 <= k < |turns| && turns[k].c == x && TooLong(turns[k])
  {
    hide HasWork, MustPutOff, TooLong;
    var n := |turns| - 1;
    forall x ensures x in r'.ignored <==> exists k :: 0 <= k < |turns| && turns[k].c == x && TooLong(turns[k]) {
      if k :| 0 <= k < |turns| && turns[k].c == x && TooLong(turns[k]) {
        if k < n {
          assert turns[..n][k].c == x && TooLong(turns[..n][k]);
        }
      }
      if x in r'.ignored {
        if x in r.ignored {
          var k :| 0 <= k < n && turns[..n][k].c == x && TooLong(turns[..n][k]);
          assert turns[k].c == x;
        } else {
          assert turns[n].c == x;
        }
      }
    }
  }

  /** Nobody is scheduled without work to do, nobody waits without one of the source's reasons, and exactly those beyond
      the prompt limit are ignored; a target has its turn unless an earlier one ended the call. */
  lemma CallReasoned(v: Variant, f: Flags, pre: seq<Id>, call: Call, s: Sys, lim: Limits, s': Sys, r: Round,
                     lim': Limits)
    requires Called(v, f, pre, call, s, lim, s', r, lim')
    ensures Reasoned(f, call.turns, r) && (call.stopped || TargetsOf(call.end, f.q) == [])
  {
    hide Trail, Reasoned, TargetsOf;
    TrailReasoned(v, f, call.turns, s, Round(f.q, [], [], [], pre, 0, None), lim, call.end, r, call.lim, call.stopped);
  }

  /** If there is a target, the first one has the first turn, in the state that the call started from. */
  lemma {:induction false} FirstTurn(v: Variant, f: Flags, turns: seq<Turn>, s: Sys, r: Round, lim: Limits,
                                     s': Sys, r': Round, lim': Limits, stop: bool)
    requires Trail(v, f, turns, s, r, lim, s', r', lim', stop) && turns != []
    ensures turns[0].s == s && turns[0].r == r && turns[0].lim == lim
  {
    hide Turned;
    var n := |turns| - 1;
    if n > 0 {
      FirstTurn(v, f, turns[..n], s, r, lim, turns[n].s, turns[n].r, turns[n].lim, false);
    }
  }

  /** If the first target fits, the call schedules it: in particular the batch is not empty. */
  lemma FirstIsScheduled(v: Variant, f: Flags, pre: seq<Id>, call: Call, s: Sys, lim: Limits, s': Sys, r: Round,
                         lim': Limits, c: Id)
    requires Called(v, f, pre, call, s, lim, s', r, lim')
    requires TargetsOf(s, f.q) != [] && c == TargetsOf(s, f.q)[0] && c in s.data
    requires var d := s.data[c];
      && d.Len() <= s.limit && f.maxSequences >= 1 && (Swapping(d, lim) > 0 || Forwarding(d, lim, 0) > 0)
      && Need(s, c, Swapping(d, lim), Forwarding(d, lim, 0)) <= |s.pool.gpu.free|
    ensures c in r.scheduled && c in s'.data && s'.data[c] ==
      s.data[c].Populate(0, Swapping(s.data[c], lim), Forwarding(s.data[c], lim, 0)).(status := Status.Running)
    ensures InBatch(s'.place, c)
  {
    hide Trail, Turned, Reasoned;
    var r0 := Round(f.q, [], [], [], pre, 0, None);
    CalledParts(v, f, pre, call, s, lim, s', r, lim');
    if call.turns == [] {
      NoTurns(v, f, s, r0, lim, call.end, r, call.lim, call.stopped);
    } else {
      FirstTurn(v, f, call.turns, s, r0, lim, call.end, r, call.lim, call.stopped);
      TurnAt(v, f, call.turns, s, r0, lim, call.end, r, call.lim, call.stopped, 0);
      var a := AfterTurn(call.turns, 0, call.end, r, call.lim);
      PoppedSame(v, f, call.turns[0], a.0, a.1, a.2, 1 == |call.turns| && call.stopped);
      FitsIsScheduled(v, f, pre, call, s, lim, s', r, lim', 0);
    }
  }

  lemma NoTurns(v: Variant, f: Flags, s: Sys, r: Round, lim: Limits, s': Sys, r': Round, lim': Limits, stop: bool)
    requires Trail(v, f, [], s, r, lim, s', r', lim', stop)
    ensures s' == s && !stop
  {
  }

  lemma PoppedSame(v: Variant, f: Flags, t: Turn, s': Sys, r': Round, lim': Limits, stop: bool)
    requires Turned(v, f, t, s', r', lim', stop)
    ensures t.popped.data == t.s.data && t.popped.pool == t.s.pool && t.popped.limit == t.s.limit
    ensures t.popped.b == t.s.b && TargetsOf(t.s, f.q) != [] && t.c == TargetsOf(t.s, f.q)[0]
  {
    hide Judged, Onward;
  }
}
