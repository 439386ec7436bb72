/** What processing the outputs of one iteration leaves of each request: its tokens, its pause mode, its blocks. */
module Replies {
  import opened Basics
  import opened Blocks
  import opened Sequences
  import opened Layouts
  import opened BlockManager
  import opened System
  import opened Memory
  import opened Steps
  import opened Preemption
  import opened Phases
  import opened Iterations
  import opened Victims
  import opened Sorting
  import opened Outputs

  /** Request `x` was paused while it had `cached` tokens in the blocks of table `t`, and `room` CPU blocks were
      free.  A swap takes place if and only if they can take all GPU blocks of the table. */
  ghost predicate PausedBy(s: Sys, x: Id, mode: Mode, cached: int, t: Table, room: nat) {
    && x in s.data && s.data[x].status.PausedApi? && x in s.place && s.place[x].AtPaused? && x in s.paused
    && if mode.Recompute? then
         s.paused[x].Recompute? && x !in s.pool.tables && s.data[x].Cached() == 0
       else
         && x in s.pool.tables && s.data[x].Cached() == cached
         && if mode.Swap? && |OnDevice(t, GPU)| <= room then
              s.paused[x].Swap? && GpuPrefix(s.pool.tables[x], 0) && |s.pool.tables[x]| == |t|
            else s.paused[x].Preserve? && s.pool.tables[x] == t
  }

  /** Request `x`, whose text was `d`, got sample `a` as its next token, and the verdict was carried out. */
  ghost predicate Reacted(s: Sys, x: Id, a: Sample, d: SeqRec, cached: int, t: Table, room: nat) {
    && x in s.data && x in s.place && s.data[x].prompt == d.prompt && s.data[x].output == d.output + [a.token]
    && match a.verdict
       case Continue =>
         && s.place[x].AtRunning? && s.data[x].status.Running? && s.data[x].Cached() == cached
         && x in s.pool.tables && s.pool.tables[x] == t && x !in s.paused
       case Finish(capped) =>
         && s.place[x].AtDone? && x !in s.pool.tables && x !in s.paused
         && (if capped then s.data[x].status.FinishedLengthCapped? else s.data[x].status.FinishedStopped?)
       case Pause(mode) => PausedBy(s, x, mode, cached, t, room)
  }

  /** The free CPU blocks once a verdict on a request with table `t` was carried out. */
  ghost function ReplyRoom(v: Verdict, t: Table, room: nat): nat {
    match v
    case Continue => room
    case Finish(_) => room + |OnDevice(t, CPU)|
    case Pause(mode) => RoomAfter(mode, t, room)
  }

  /** The free CPU blocks when it is the turn of the `k`-th answered request. */
  ghost function TurnRoom(s0: Sys, answered: seq<Id>, outputs: seq<Sample>, k: nat): nat
    requires k <= |answered| <= |outputs|
  {
    if k == 0 then |s0.pool.cpu.free|
    else
      var x, n := answered[k - 1], TurnRoom(s0, answered, outputs, k - 1);
      if x in s0.data && s0.data[x].inflight == s0.data[x].runningInflight
      then ReplyRoom(outputs[k - 1].verdict, TableOf(s0.pool.tables, x), n)
      else n
  }

  /** Tables and pause modes of all requests but `x` are as they were. */
  ghost predicate Beside(s: Sys, s': Sys, x: Id) {
    s'.pool.tables - {x} == s.pool.tables - {x} && s'.paused - {x} == s.paused - {x}
  }

  /** One completely forwarded request was dealt with. */
  ghost predicate Replying(s: Sys, s': Sys, x: Id, a: Sample) {
    && x in s.data && x in s.pool.tables && Beside(s, s', x)
    && Reacted(s', x, a, s.data[x], s.data[x].Cached(), s.pool.tables[x], |s.pool.cpu.free|)
    && |s'.pool.cpu.free| == ReplyRoom(a.verdict, s.pool.tables[x], |s.pool.cpu.free|)
  }

  /** A request whose planned tokens were forwarded and that nothing else happened to. */
  ghost predicate ForwardedOnly(s0: Sys, s: Sys, x: Id, inBatch: bool) {
    && x in s0.data && x in s.data && x in s0.place && x in s.place && ForwardedAt(s0, s, x, inBatch)
    && Lookup(s.pool.tables, x) == Lookup(s0.pool.tables, x) && Lookup(s.paused, x) == Lookup(s0.paused, x)
  }

  /** What became of an answered request: `s0` is the state in which the batch was forwarded. */
  ghost predicate DealtWith(s0: Sys, s: Sys, x: Id, a: Sample, room: nat) {
    if x in s0.data && s0.data[x].inflight == s0.data[x].runningInflight then
      x in s0.pool.tables && Reacted(s, x, a, s0.data[x], s0.data[x].Len(), s0.pool.tables[x], room)
    else ForwardedOnly(s0, s, x, true)
  }

  /** The first `k` answered requests were dealt with, and the others are forwarded only. */
  ghost predicate DealtSoFar(s0: Sys, s: Sys, scheduled: seq<Id>, answered: seq<Id>, outputs: seq<Sample>, k: nat) {
    && k <= |answered| == |outputs| && NoDup(answered)
    && |s.pool.cpu.free| == TurnRoom(s0, answered, outputs, k)
    && (forall j {:trigger DealtWith(s0, s, answered[j], outputs[j], TurnRoom(s0, answered, outputs, j))} ::
          0 <= j < k ==> DealtWith(s0, s, answered[j], outputs[j], TurnRoom(s0, answered, outputs, j)))
    && (forall x {:trigger ForwardedOnly(s0, s, x, x in scheduled)} :: x in s0.data && x !in answered[..k] ==>
          ForwardedOnly(s0, s, x, x in scheduled))
  }

  /** The three ways to pause, step by step. */
  lemma KeptPaused(s: Sys, s': Sys, x: Id, mode: Mode)
    requires x in s.data && x in s.pool.tables && x in s.place
    requires s' == s.(data := s.data[x := s.data[x].(status := PausedApi)], paused := s.paused[x := Preserve],
                      place := s.place[x := AtPaused])
    requires mode.Preserve? || (mode.Swap? && |s.pool.cpu.free| < |OnDevice(s.pool.tables[x], GPU)|)
    ensures PausedBy(s', x, mode, s.data[x].Cached(), s.pool.tables[x], |s.pool.cpu.free|) && Beside(s, s', x)
    ensures |s'.pool.cpu.free| == RoomAfter(mode, s.pool.tables[x], |s.pool.cpu.free|)
  {
    hide OnDevice;
    RoomAfterIs(s.pool.tables[x], |s.pool.cpu.free|);
  }

  lemma GivenPaused(s: Sys, s': Sys, x: Id)
    requires x in s.data && x in s.pool.tables && x in s.place
    requires PoolOk(s.pool) && Exclusive(s.pool.tables) && PoolOk(s'.pool) && SameArenas(s.pool, s'.pool)
    requires s'.pool.tables == s.pool.tables - {x}
    requires s' == s.(pool := s'.pool, data := s.data[x := s.data[x].Restarted().(status := PausedApi)],
                      paused := s.paused[x := Recompute], place := s.place[x := AtPaused])
    ensures PausedBy(s', x, Recompute, s.data[x].Cached(), s.pool.tables[x], |s.pool.cpu.free|) && Beside(s, s', x)
    ensures |s'.pool.cpu.free| == RoomAfter(Recompute, s.pool.tables[x], |s.pool.cpu.free|)
  {
    hide OnDevice, PoolOk, Exclusive, SameArenas;
    RoomAfterIs(s.pool.tables[x], |s.pool.cpu.free|);
    FreedCounts(s.pool, s'.pool, x);
  }

  lemma ParkedPaused(s: Sys, l: Log, s1: Sys, l1: Log, s': Sys, x: Id, m: map<nat, nat>)
    requires x in s.data && x in s.place && OutStep(s, l, s1, l1, x, m) && x in s1.data && x in s1.pool.tables
    requires x in s.pool.tables && |OnDevice(s.pool.tables[x], GPU)| <= |s.pool.cpu.free|
    requires |s1.pool.cpu.free| == |s.pool.cpu.free| - |OnDevice(s.pool.tables[x], GPU)|
    requires s' == s1.(data := s1.data[x := SwappedRec(s1.data[x], |s1.pool.tables[x]|).(status := PausedApi)],
                       paused := s1.paused[x := Swap], place := s1.place[x := AtPaused])
    ensures PausedBy(s', x, Swap, s.data[x].Cached(), s.pool.tables[x], |s.pool.cpu.free|) && Beside(s, s', x)
    ensures |s'.pool.cpu.free| == RoomAfter(Swap, s.pool.tables[x], |s.pool.cpu.free|)
  {
    hide OnDevice, PoolOk, Exclusive, SameArenas, Moved, LoggedOut;
    RoomAfterIs(s.pool.tables[x], |s.pool.cpu.free|);
  }

  /** Finishing frees the blocks. */
  lemma FinishedFreed(s: Sys, s': Sys, x: Id)
    requires x in s.pool.tables && PoolOk(s.pool) && Exclusive(s.pool.tables) && PoolOk(s'.pool)
    requires SameArenas(s.pool, s'.pool) && s'.pool.tables == s.pool.tables - {x} && s'.paused == s.paused
    ensures |s'.pool.cpu.free| == |s.pool.cpu.free| + |OnDevice(s.pool.tables[x], CPU)| && Beside(s, s', x)
  {
    hide PoolOk, Exclusive, SameArenas;
    FreedCounts(s.pool, s'.pool, x);
  }

  /** A sampled token was appended, and its request goes on. */
  lemma ReplyingContinue(s: Sys, s1: Sys, x: Id, a: Sample)
    requires x in s.data && x in s.pool.tables && x in s.place && x !in s.paused && s.data[x].status.Running?
    requires s1 == NextToken(s, x, a.token) && a.verdict.Continue?
    ensures Replying(s, s1, x, a)
  {
  }

  lemma ReplyingFinish(s: Sys, s1: Sys, s': Sys, x: Id, a: Sample)
    requires x in s.data && x in s.pool.tables && x in s.place && x !in s.paused
    requires s1 == NextToken(s, x, a.token) && a.verdict.Finish? && x in s1.data
    requires s'.pool.tables == s1.pool.tables - {x} && Beside(s1, s', x) && s'.paused == s1.paused
    requires |s'.pool.cpu.free| == |s1.pool.cpu.free| + |OnDevice(s.pool.tables[x], CPU)|
    requires s'.data == s1.data[x := s1.data[x].(status := FinalStatus(a.verdict.capped))]
    requires s'.place == s1.place[x := AtDone]
    ensures Replying(s, s', x, a)
  {
    hide OnDevice;
  }

  lemma ReplyingPause(s: Sys, s1: Sys, s': Sys, x: Id, a: Sample)
    requires x in s.data && x in s.pool.tables && s1 == NextToken(s, x, a.token) && a.verdict.Pause? && x in s1.data
    requires x in s'.data && s'.data[x].Remains(s1.data[x]) && Beside(s1, s', x)
    requires PausedBy(s', x, a.verdict.mode, s1.data[x].Cached(), s.pool.tables[x], |s.pool.cpu.free|)
    requires |s'.pool.cpu.free| == RoomAfter(a.verdict.mode, s.pool.tables[x], |s.pool.cpu.free|)
    ensures Replying(s, s', x, a)
  {
    hide OnDevice, RoomAfter;
  }

  lemma ForwardedRuns(s: Sys, l: Log, x: Id)
    requires Sound(LiveState(s), l) && x in s.place && s.place[x].AtForwarded?
    ensures x in s.data && x in s.pool.tables && x !in s.paused && s.data[x].status.Running?
  {
    hide Live;
    assert GoodAt(LiveState(s), x);
  }

  lemma AnsweredOnce(s0: Sys, scheduled: seq<Id>)
    requires NoDup(scheduled)
    ensures NoDup(WithOutput(s0.data, scheduled))
    ensures forall x :: x in WithOutput(s0.data, scheduled) ==> x in scheduled
  {
    SelectNoDup(scheduled, HasOutput(s0.data));
    SelectWithin(scheduled, HasOutput(s0.data));
  }

  /** Dropping requests from the running list changes nothing of this. */
  lemma DealtLive(s0: Sys, s: Sys, scheduled: seq<Id>, answered: seq<Id>, outputs: seq<Sample>, k: nat)
    requires DealtSoFar(s0, s, scheduled, answered, outputs, k)
    ensures DealtSoFar(s0, LiveState(s), scheduled, answered, outputs, k)
    ensures LiveState(s).running == Live(s.running, s.place)
  {
    hide Live, TurnRoom;
    forall j | 0 <= j < k
      ensures DealtWith(s0, LiveState(s), answered[j], outputs[j], TurnRoom(s0, answered, outputs, j))
    {
      assert DealtWith(s0, s, answered[j], outputs[j], TurnRoom(s0, answered, outputs, j));
      DealtSame(s0, s, LiveState(s), answered[j], outputs[j], TurnRoom(s0, answered, outputs, j));
    }
    forall x | x in s0.data && x !in answered[..k] ensures ForwardedOnly(s0, LiveState(s), x, x in scheduled) {
      assert ForwardedOnly(s0, s, x, x in scheduled);
    }
  }

  lemma DealtStart(s0: Sys, s: Sys, scheduled: seq<Id>, answered: seq<Id>, outputs: seq<Sample>)
    requires PartlyForwarded(s0, s, scheduled) && |answered| == |outputs| && NoDup(answered)
    ensures DealtSoFar(s0, s, scheduled, answered, outputs, 0)
  {
    forall x | x in s0.data ensures ForwardedOnly(s0, s, x, x in scheduled) {
      ForwardedOne(s0, s, scheduled, x);
    }
  }

  lemma DealtNext(s0: Sys, s: Sys, s': Sys, scheduled: seq<Id>, answered: seq<Id>, outputs: seq<Sample>, k: nat)
    requires DealtSoFar(s0, s, scheduled, answered, outputs, k) && k < |answered|
    requires answered[k] in s0.data && answered[k] in scheduled
    requires answered[k] in s.data && s'.data.Keys == s.data.Keys && s'.place.Keys == s.place.Keys
    requires forall y :: y in s.data && y != answered[k] ==> s'.data[y] == s.data[y]
    requires forall y :: y in s.place && y != answered[k] ==> s'.place[y] == s.place[y]
    requires if s.data[answered[k]].inflight == 0 then Replying(s, s', answered[k], outputs[k]) else s' == s
    ensures DealtSoFar(s0, s', scheduled, answered, outputs, k + 1)
  {
    hide DealtWith, ForwardedOnly, Replying, Reacted, Beside, ReplyRoom;
    var x := answered[k];
    assert answered[..k + 1] == answered[..k] + [x];
    assert x !in answered[..k];
    assert ForwardedOnly(s0, s, x, x in scheduled);
    DealtOne(s0, s, s', x, outputs[k], TurnRoom(s0, answered, outputs, k));
    forall j | 0 <= j < k ensures DealtWith(s0, s', answered[j], outputs[j], TurnRoom(s0, answered, outputs, j)) {
      assert DealtWith(s0, s, answered[j], outputs[j], TurnRoom(s0, answered, outputs, j));
      DealtStays(s0, s, s', answered[j], outputs[j], TurnRoom(s0, answered, outputs, j), x, outputs[k]);
    }
    forall y | y in s0.data && y !in answered[..k + 1] ensures ForwardedOnly(s0, s', y, y in scheduled) {
      assert ForwardedOnly(s0, s, y, y in scheduled);
      ForwardedStays(s0, s, s', y, y in scheduled, x, outputs[k]);
    }
  }

  lemma DealtOne(s0: Sys, s: Sys, s': Sys, x: Id, a: Sample, room: nat)
    requires ForwardedOnly(s0, s, x, true) && |s.pool.cpu.free| == room
    requires if s.data[x].inflight == 0 then Replying(s, s', x, a) else s' == s
    ensures DealtWith(s0, s', x, a, room)
    ensures |s'.pool.cpu.free| == if s0.data[x].inflight == s0.data[x].runningInflight
      then ReplyRoom(a.verdict, TableOf(s0.pool.tables, x), room) else room
  {
    hide PausedBy, RoomAfter, Beside;
    assert Lookup(s.pool.tables, x) == Lookup(s0.pool.tables, x);
  }

  lemma BesideAt(s: Sys, s': Sys, x: Id, y: Id)
    requires Beside(s, s', x) && y != x
    ensures Lookup(s'.pool.tables, y) == Lookup(s.pool.tables, y) && Lookup(s'.paused, y) == Lookup(s.paused, y)
  {
    KeyAfterDrop(s.pool.tables, s'.pool.tables, x, y);
    KeyAfterDrop(s.paused, s'.paused, x, y);
  }

  lemma DealtStays(s0: Sys, s: Sys, s': Sys, y: Id, a: Sample, room: nat, x: Id, b: Sample)
    requires Lookup(s'.data, y) == Lookup(s.data, y) && Lookup(s'.place, y) == Lookup(s.place, y)
    requires DealtWith(s0, s, y, a, room) && y != x && (Replying(s, s', x, b) || s' == s)
    ensures DealtWith(s0, s', y, a, room)
  {
    hide PausedBy, ReplyRoom, Beside, ForwardedAt;
    if s' != s {
      BesideAt(s, s', x, y);
      DealtSame(s0, s, s', y, a, room);
    }
  }

  lemma DealtSame(s0: Sys, s: Sys, s': Sys, y: Id, a: Sample, room: nat)
    requires DealtWith(s0, s, y, a, room)
    requires Lookup(s'.data, y) == Lookup(s.data, y) && Lookup(s'.place, y) == Lookup(s.place, y)
    requires Lookup(s'.pool.tables, y) == Lookup(s.pool.tables, y) && Lookup(s'.paused, y) == Lookup(s.paused, y)
    ensures DealtWith(s0, s', y, a, room)
  {
  }

  lemma ForwardedStays(s0: Sys, s: Sys, s': Sys, y: Id, inBatch: bool, x: Id, b: Sample)
    requires ForwardedOnly(s0, s, y, inBatch) && y != x && (Replying(s, s', x, b) || s' == s)
    requires Lookup(s'.data, y) == Lookup(s.data, y) && Lookup(s'.place, y) == Lookup(s.place, y)
    ensures ForwardedOnly(s0, s', y, inBatch)
  {
    hide Reacted, ReplyRoom, Beside;
    if s' != s {
      BesideAt(s, s', x, y);
    }
  }
}
