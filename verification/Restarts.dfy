/** Restarting a swapped request in the middle of the combined phase: what the phase then leaves. */
module Restarts {
  import opened Basics
  import opened Blocks
  import opened Sequences
  import opened Layouts
  import opened BlockManager
  import opened System
  import opened Memory
  import opened Steps
  import opened Preemption
  import opened Rounds
  import opened Phases
  import opened Sorting

  /** The combined phase at one moment: the state, the pending copies and the local lists. */
  datatype Stage = Stage(s: Sys, l: Log, r: Round)

  /** Everything that the combined phase does: it pops a target, plans its work, puts it off, ignores it,
      restarts a request of the swapped queue or a paused one that was swapped out, gives up the last
      preemption target, or schedules the target with its blocks. */
  datatype Move =
    | Popping
    | Planning(swaps: int, tokens: int)
    | PuttingOff
    | Ignoring
    | RestartingQueued(x: Id)
    | RestartingPaused(x: Id)
    | GivingUp
    | Taking(copies: map<nat, nat>)

  ghost predicate Makes(a: Stage, m: Move, b: Stage) {
    if m.Popping? then
      && a.r.cur.None? && a.s.combined != [] && PopStep(a.s, b.s, a.s.combined[0], QCombined)
      && b == a.(s := b.s, r := a.r.(cur := Some(a.s.combined[0])))
    else
      a.r.cur.Some? && a.r.cur.value in a.s.data && InHandMakes(a, a.r.cur.value, m, b)
  }

  /** The steps with target `c` in hand.  A target is scheduled as planned, or, if it was restarted since,
      without any work: the source does not plan it again. */
  ghost predicate InHandMakes(a: Stage, c: Id, m: Move, b: Stage)
    requires c in a.s.data
  {
    var s, r, d := a.s, a.r, a.s.data[c];
    match m
    case Popping => false
    case Planning(n, t) => b == a.(s := s.(data := s.data[c := d.Populate(0, n, t)]))
    case PuttingOff =>
      b == a.(s := s.(place := s.place[c := AtDelayed]), r := r.(delayed := r.delayed + [c], cur := None))
    case Ignoring =>
      && s.limit < d.Len()
      && b == a.(s := s.(place := s.place[c := AtDone], data := s.data[c := d.(status := FinishedIgnored)]),
                 r := r.(ignored := r.ignored + [c], cur := None))
    case RestartingQueued(x) =>
      && x in s.swapped && x in s.data && Released(s.pool, b.s.pool, x)
      && b == a.(s := RestartedSwapped(s, x, b.s.pool))
    case RestartingPaused(x) =>
      && x in s.paused && s.paused[x].Swap? && x in s.data && Released(s.pool, b.s.pool, x)
      && b == a.(s := RestartedPaused(s, x, b.s.pool))
    case GivingUp =>
      && r.pre != [] && r.pre[|r.pre| - 1] in s.paused && DropStep(s, b.s, r.pre[|r.pre| - 1], false)
      && b == a.(s := b.s, r := r.(pre := r.pre[..|r.pre| - 1]))
    case Taking(copies) =>
      && (Planned(d) || (d.status.Waiting? && d.Idle()))
      && AllocStep(s, a.l, s.(pool := b.s.pool), b.l, c, copies)
      && b.s == s.(pool := b.s.pool, data := s.data[c := d.(status := Status.Running)],
                   place := s.place[c := AtScheduled])
      && b.r == r.(scheduled := r.scheduled + [c], tokens := r.tokens + d.runningInflight, cur := None)
  }

  /** Request `x` gave its blocks back. */
  ghost predicate Released(p: Pool, p': Pool, x: Id) {
    PoolOk(p') && SameArenas(p, p') && p'.tables == p.tables - {x}
  }

  /** Any run of the combined phase, or the rest of one. */
  ghost predicate Course(stages: seq<Stage>, moves: seq<Move>) {
    |stages| == |moves| + 1 && forall i :: 0 <= i < |moves| ==> Makes(stages[i], moves[i], stages[i + 1])
  }

  /** The two steps that do harm: restarting a request that the phase is done with, and scheduling a target
      that was restarted in hand. */
  ghost predicate Harmful(a: Stage, m: Move) {
    || (m.RestartingQueued? && Stale(a.s.place, m.x))
    || (m.Taking? && a.r.cur.Some? && a.r.cur.value in a.s.data && !Planned(a.s.data[a.r.cur.value]))
  }

  ghost predicate SoundAt(a: Stage) {
    Sound(a.s, a.l) && At(a.s, a.r) && a.r.q.QCombined?
  }

  /** The end of a `_schedule` call clears the planned work of the delayed requests. */
  ghost function ClearedAll(s: Sys, ids: seq<Id>): Sys {
    if ids == [] then s
    else
      var t, x := ClearedAll(s, ids[..|ids| - 1]), ids[|ids| - 1];
      if x in t.data then t.(data := t.data[x := t.data[x].Cleared()]) else t
  }

  /** The state that the combined phase leaves. */
  ghost function Ended(a: Stage): Sys {
    Parted(ClearedAll(a.s, a.r.delayed), a.r)
  }

  /** However the combined phase goes on from a sound state, it leaves a sound one if and only if it takes
      none of the two harmful steps. */
  lemma CombinedPhaseEnds(stages: seq<Stage>, moves: seq<Move>)
    requires Course(stages, moves) && SoundAt(stages[0]) && stages[|moves|].r.cur.None?
    ensures Inv(Ended(stages[|moves|])) <==> forall i :: 0 <= i < |moves| ==> !Harmful(stages[i], moves[i])
  {
    hide *;
    CourseSize(stages, moves);
    if i :| 0 <= i < |moves| && Harmful(stages[i], moves[i]) {
      var k := FirstHarm(stages, moves, i);
      CarefulKeeps(stages, moves, k);
      CourseStep(stages, moves, k);
      var x := HarmLoses(stages[k], moves[k], stages[k + 1]);
      LostStays(stages, moves, k + 1, |moves|, x);
      LostEnds(stages[|moves|], x);
    } else {
      CarefulKeeps(stages, moves, |moves|);
      SoundEnds(stages[|moves|]);
    }
  }

  /** In the source's own lists: restarting a swapped request does no harm if and only if the request is
      still to be offered, delayed, or the target in hand.  Otherwise no way to end the phase is sound. */
  lemma RestartInCombinedPhase(stages: seq<Stage>, moves: seq<Move>, x: Id)
    requires Course(stages, moves) && SoundAt(stages[0]) && stages[|moves|].r.cur.None?
    requires moves != [] && moves[0] == RestartingQueued(x)
    ensures var s, r := stages[0].s, stages[0].r;
      var harmless := x in s.combined || x in r.delayed || r.cur == Some(x);
      && (!harmless ==> !Inv(Ended(stages[|moves|])))
      && ((forall i :: 1 <= i < |moves| ==> !Harmful(stages[i], moves[i])) ==>
           (Inv(Ended(stages[|moves|])) <==> harmless))
  {
    hide *;
    CourseSize(stages, moves);
    CourseStep(stages, moves, 0);
    QueuedStep(stages[0], stages[1], x);
    StageParts(stages[0]);
    RegisteredKnown(stages[0].s, stages[0].l, stages[0].r, stages[0].r.cur.value, x);
    HarmfulQueued(stages[0], x);
    CombinedPhaseEnds(stages, moves);
  }

  lemma HarmfulQueued(a: Stage, x: Id)
    ensures Harmful(a, RestartingQueued(x)) <==> Stale(a.s.place, x)
  {
  }

  lemma CourseSize(stages: seq<Stage>, moves: seq<Move>)
    requires Course(stages, moves)
    ensures |stages| == |moves| + 1
  {
  }

  lemma CourseStep(stages: seq<Stage>, moves: seq<Move>, i: nat)
    requires Course(stages, moves) && i < |moves|
    ensures |stages| == |moves| + 1 && Makes(stages[i], moves[i], stages[i + 1])
  {
  }

  lemma QueuedStep(a: Stage, b: Stage, x: Id)
    requires Makes(a, RestartingQueued(x), b)
    ensures a.r.cur.Some? && a.r.cur.value in a.s.data && x in a.s.swapped && x in a.s.data
    ensures Released(a.s.pool, b.s.pool, x) && b == a.(s := RestartedSwapped(a.s, x, b.s.pool))
  {
  }

  lemma StageParts(a: Stage)
    requires SoundAt(a)
    ensures Sound(a.s, a.l) && At(a.s, a.r) && a.r.q.QCombined? && Inv(a.s)
  {
  }

  lemma StageFrom(a: Stage)
    requires Sound(a.s, a.l) && At(a.s, a.r) && a.r.q.QCombined?
    ensures SoundAt(a)
  {
  }

  /** The first harmful step, no later than step `i`. */
  lemma {:induction false} FirstHarm(stages: seq<Stage>, moves: seq<Move>, i: nat) returns (k: nat)
    requires |stages| == |moves| + 1 && i < |moves| && Harmful(stages[i], moves[i])
    ensures k <= i && Harmful(stages[k], moves[k])
    ensures forall j :: 0 <= j < k ==> !Harmful(stages[j], moves[j])
  {
    hide Harmful;
    if j :| 0 <= j < i && Harmful(stages[j], moves[j]) {
      k := FirstHarm(stages, moves, j);
    } else {
      k := i;
    }
  }

  // ---- Without a harmful step

  lemma {:induction false} CarefulKeeps(stages: seq<Stage>, moves: seq<Move>, n: nat)
    requires Course(stages, moves) && n <= |moves| && SoundAt(stages[0])
    requires forall i :: 0 <= i < n ==> !Harmful(stages[i], moves[i])
    ensures SoundAt(stages[n])
  {
    hide Makes, Harmful, SoundAt;
    if n > 0 {
      CarefulKeeps(stages, moves, n - 1);
      CarefulStep(stages[n - 1], moves[n - 1], stages[n]);
    }
  }

  lemma CarefulStep(a: Stage, m: Move, b: Stage)
    requires SoundAt(a) && Makes(a, m, b) && !Harmful(a, m)
    ensures SoundAt(b)
  {
    hide *;
    StageParts(a);
    match m {
      case Popping => PoppingKeeps(a, b);
      case Planning(n, t) => PlanningKeeps(a, n, t, b);
      case PuttingOff => SettlingKeeps(a, m, b);
      case Ignoring => SettlingKeeps(a, m, b);
      case RestartingQueued(x) => QueuedKeeps(a, b, x);
      case RestartingPaused(x) => PausedKeeps(a, b, x);
      case GivingUp => GivingUpKeeps(a, b);
      case Taking(copies) => TakingKeeps(a, copies, b);
    }
  }

  lemma PoppingKeeps(a: Stage, b: Stage)
    requires SoundAt(a) && Makes(a, Popping, b)
    ensures SoundAt(b)
  {
    hide Sound, At, PopStep;
    Popped(a.s, a.l, b.s, a.s.combined[0], a.r);
  }

  lemma PlanningKeeps(a: Stage, n: int, t: int, b: Stage)
    requires SoundAt(a) && Makes(a, Planning(n, t), b)
    ensures SoundAt(b)
  {
    hide Sound, At;
    Populated(a.s, a.l, b.s, a.r.cur.value, n, t, a.r);
  }

  lemma SettlingKeeps(a: Stage, m: Move, b: Stage)
    requires SoundAt(a) && Makes(a, m, b) && (m.PuttingOff? || m.Ignoring?)
    ensures SoundAt(b)
  {
    hide Sound, At;
    Resettled(a.s, a.l, b.s, a.r.cur.value, if m.PuttingOff? then AtDelayed else AtDone, a.r);
  }

  lemma QueuedKeeps(a: Stage, b: Stage, x: Id)
    requires SoundAt(a) && Makes(a, RestartingQueued(x), b) && !Harmful(a, RestartingQueued(x))
    ensures SoundAt(b)
  {
    hide *;
    StageParts(a);
    QueuedStep(a, b, x);
    HarmfulQueued(a, x);
    ReleasedParts(a.s.pool, b.s.pool, x);
    RestartedSwappedFields(a.s, x, b.s.pool);
    SwappedDiscarded(a.s, a.l, b.s, x);
    SparedAt(a.s, a.l, b.s, a.r, a.r.cur.value, x);
    StageFrom(b);
  }

  lemma ReleasedParts(p: Pool, p': Pool, x: Id)
    requires Released(p, p', x)
    ensures PoolOk(p') && SameArenas(p, p') && p'.tables == p.tables - {x}
  {
  }

  lemma PausedKeeps(a: Stage, b: Stage, x: Id)
    requires SoundAt(a) && Makes(a, RestartingPaused(x), b)
    ensures SoundAt(b)
  {
    hide *;
    StageParts(a);
    PausedStep(a, b, x);
    ReleasedParts(a.s.pool, b.s.pool, x);
    RestartedPausedFields(a.s, x, b.s.pool);
    PausedDiscarded(a.s, a.l, b.s, x);
    SparedAt(a.s, a.l, b.s, a.r, a.r.cur.value, x);
    StageFrom(b);
  }

  lemma PausedStep(a: Stage, b: Stage, x: Id)
    requires Makes(a, RestartingPaused(x), b)
    ensures a.r.cur.Some? && x in a.s.paused && a.s.paused[x].Swap? && x in a.s.data
    ensures Released(a.s.pool, b.s.pool, x) && b == a.(s := RestartedPaused(a.s, x, b.s.pool))
    ensures b.s.running == a.s.running && b.s.combined == a.s.combined
  {
  }

  /** A request that only lost CPU blocks leaves the local lists meaningful. */
  lemma SparedAt(s: Sys, l: Log, s': Sys, r: Round, c: Id, x: Id)
    requires Sound(s, l) && At(s, r) && r.cur == Some(c) && Spared(s, s', x)
    requires s'.combined == s.combined && s'.running == s.running
    ensures At(s', r)
  {
    hide *;
    AtFields(s, r);
    RoomMadeSelf(s, l);
    RoomMadeStep(s, s, s', x);
    VictimsKept(s, s', r.pre);
    MakingStart(s, l, r, c);
    AfterIs(r, r.pre);
    MakingStep(s, s, s', r, c, AtPaused, r.pre);
    MakingAt(s, s', r, r, c);
  }

  lemma VictimsKept(s: Sys, s': Sys, vs: seq<Id>)
    requires VictimList(s, vs, AtPaused) && RoomMade(s, s')
    ensures VictimList(s', vs, AtPaused)
  {
    hide RoomMade, Victim;
    forall v | v in vs ensures Victim(s', v, AtPaused) {
      assert Victim(s, v, AtPaused);
      VictimRoom(s, s', v, AtPaused);
    }
  }

  lemma GivingUpKeeps(a: Stage, b: Stage)
    requires SoundAt(a) && Makes(a, GivingUp, b)
    ensures SoundAt(b)
  {
    hide *;
    StageParts(a);
    GivingUpStep(a, b);
    var s, s', l, r, n := a.s, b.s, a.l, a.r, |a.r.pre| - 1;
    var v, c, rest := r.pre[n], r.cur.value, r.pre[..n];
    AtFields(s, r);
    LastPaused(s, r.pre);
    VictimDropped(s, l, s', v, AtPaused);
    DroppedStep(s, s', v);
    NothingDiscarded(s);
    SwappedNotPaused(s, l);
    PausedPlaced(s, l);
    VictimGone(s, l, s', r.pre, [], AtPaused, v);
    MakingStart(s, l, r, c);
    AfterIs(r, rest);
    MakingStep(s, s, s', r, c, AtPaused, rest);
    MakingAt(s, s', r, r.(pre := rest), c);
    StageFrom(b);
  }

  lemma GivingUpStep(a: Stage, b: Stage)
    requires Makes(a, GivingUp, b)
    ensures a.r.cur.Some? && a.r.pre != []
    ensures var n := |a.r.pre| - 1;
      && DropStep(a.s, b.s, a.r.pre[n], false) && b == a.(s := b.s, r := a.r.(pre := a.r.pre[..n]))
      && b.s.running == a.s.running && b.s.combined == a.s.combined && b.s.split == a.s.split
  {
  }

  lemma LastPaused(s: Sys, vs: seq<Id>)
    requires VictimList(s, vs, AtPaused) && vs != []
    ensures Victim(s, vs[|vs| - 1], AtPaused)
  {
    assert vs[|vs| - 1] in vs;
  }

  lemma DroppedStep(s: Sys, s': Sys, v: Id)
    requires Dropped(s, s', v, AtPaused)
    ensures Kept(s, s', AtPaused) && OthersSame(s, s', v) && SameArenas(s.pool, s'.pool) && NoMore(s, s')
    ensures s'.swapped == s.swapped
  {
  }

  lemma NothingDiscarded(s: Sys)
    ensures Discards(s, [])
  {
  }

  lemma PausedPlaced(s: Sys, l: Log)
    requires Sound(s, l)
    ensures forall x :: x in s.paused ==> x in s.place
  {
  }

  lemma TakingKeeps(a: Stage, copies: map<nat, nat>, b: Stage)
    requires SoundAt(a) && Makes(a, Taking(copies), b) && !Harmful(a, Taking(copies))
    ensures SoundAt(b)
  {
    hide Sound, At, AllocStep, Planned;
    var c, s1 := a.r.cur.value, a.s.(pool := b.s.pool);
    Admitted(a.s, a.l, s1, b.s, b.l, c, copies, a.r);
  }

  lemma SoundEnds(a: Stage)
    requires SoundAt(a) && a.r.cur.None?
    ensures Inv(Ended(a))
  {
    hide *;
    StageParts(a);
    AllCleared(a.s, a.l, a.r, a.r.delayed);
    var t := ClearedAll(a.s, a.r.delayed);
    BatchListed(t);
    CloseCombined(t, a.l, a.r, BatchOf(t));
    SoundInv(Parted(t, a.r), a.l);
    EndedIs(a);
  }

  lemma EndedIs(a: Stage)
    ensures Ended(a) == Parted(ClearedAll(a.s, a.r.delayed), a.r)
  {
  }

  lemma {:induction false} AllCleared(s: Sys, l: Log, r: Round, ids: seq<Id>)
    requires Sound(s, l) && At(s, r) && r.cur.None? && forall x :: x in ids ==> x in r.delayed
    ensures Sound(ClearedAll(s, ids), l) && At(ClearedAll(s, ids), r)
    ensures forall x :: x in ids ==> x in ClearedAll(s, ids).data && ClearedAll(s, ids).data[x].Idle()
  {
    hide Sound, At, Onward;
    if ids != [] {
      var n := |ids| - 1;
      var t, x := ClearedAll(s, ids[..n]), ids[n];
      assert x in ids && forall y :: y in ids[..n] ==> y in ids;
      AllCleared(s, l, r, ids[..n]);
      DelayedKnown(t, l, x, r);
      WorkloadCleared(t, l, t.(data := t.data[x := t.data[x].Cleared()]), x, r);
      assert forall y :: y in ids ==> y == x || y in ids[..n];
    }
  }

  /** The requests of earlier phases, in some order. */
  ghost function BatchOf(s: Sys): (batch: seq<Id>) {
    Ordered(set x | x in s.place && s.place[x].AtBatch?)
  }

  ghost function Ordered(ids: set<Id>): (l: seq<Id>)
    ensures NoDup(l) && forall x :: x in l <==> x in ids
  {
    if ids == {} then []
    else
      var x :| x in ids;
      Ordered(ids - {x}) + [x]
  }

  lemma BatchListed(s: Sys)
    ensures Lists(BatchOf(s), s.place, AtBatch)
  {
  }

  // ---- After a harmful step

  /** Request `x` is in the batch without a block, or finished and waiting, and nothing in the rest of the
      phase reaches it. */
  ghost predicate Adrift(a: Stage, x: Id) {
    && x in a.s.place && x in a.s.data
    && x !in a.s.combined && x !in a.s.swapped && x !in a.s.paused && x !in a.r.delayed && a.r.cur != Some(x)
    && if a.s.place[x].AtScheduled? then x in a.r.scheduled && TableOf(a.s.pool.tables, x) == []
       else a.s.place[x].AtDone? && a.s.data[x].status.Waiting?
  }

  lemma HarmLoses(a: Stage, m: Move, b: Stage) returns (x: Id)
    requires SoundAt(a) && Makes(a, m, b) && Harmful(a, m)
    ensures Adrift(b, x)
  {
    hide SoundAt, Makes, Adrift;
    if m.RestartingQueued? {
      x := m.x;
      StaleRestarted(a, b, x);
    } else {
      x := a.r.cur.value;
      RestartedTargetRuns(a, m.copies, b);
    }
  }

  lemma StaleRestarted(a: Stage, b: Stage, x: Id)
    requires SoundAt(a) && Makes(a, RestartingQueued(x), b) && Stale(a.s.place, x)
    ensures Adrift(b, x)
  {
    hide *;
    QueuedStep(a, b, x);
    StageParts(a);
    RegisteredKnown(a.s, a.l, a.r, a.r.cur.value, x);
    NotLeft(a.s, a.l, a.r, a.r.cur.value, x);
    SwappedNotPaused(a.s, a.l);
    RemoveKeepsOthers(a.s.swapped, x);
    ReleasedParts(a.s.pool, b.s.pool, x);
    RestartedSwappedFields(a.s, x, b.s.pool);
    RestartedAdrift(a, b, x);
  }

  lemma RestartedAdrift(a: Stage, b: Stage, x: Id)
    requires x in a.s.data && x in a.s.place && b == a.(s := RestartedSwapped(a.s, x, b.s.pool)) && a.s.split
    requires x !in a.s.combined && x !in Remove(a.s.swapped, x) && x !in a.s.paused && x !in a.r.delayed
    requires a.r.cur != Some(x) && b.s.pool.tables == a.s.pool.tables - {x}
    requires a.s.place[x].AtScheduled? || a.s.place[x].AtDone?
    requires x in a.r.scheduled <==> a.s.place[x].AtScheduled?
    ensures Adrift(b, x)
  {
  }

  /** If the target in hand was itself restarted and room for its old plan is found, the source gives it an
      empty table and runs it, and nothing in the rest of the phase gives it a block. */
  lemma RestartedTargetRuns(a: Stage, copies: map<nat, nat>, b: Stage)
    requires SoundAt(a) && Makes(a, Taking(copies), b) && Harmful(a, Taking(copies))
    ensures a.r.cur.Some? && var c := a.r.cur.value;
      && c in b.s.pool.tables && b.s.pool.tables[c] == [] && c in b.s.data && b.s.data[c].status.Running?
      && c in b.r.scheduled && Adrift(b, c)
  {
    hide *;
    StageParts(a);
    TakingStep(a, copies, b);
    var c := a.r.cur.value;
    CurrentAlone(a.s, a.l, a.r, c);
    UnplannedTable(a.s, a.l, a.s.(pool := b.s.pool), b.l, c, copies);
    TakenAdrift(a, b, c);
  }

  lemma TakingStep(a: Stage, copies: map<nat, nat>, b: Stage)
    requires Makes(a, Taking(copies), b) && Harmful(a, Taking(copies))
    ensures a.r.cur.Some? && a.r.cur.value in a.s.data
    ensures var c := a.r.cur.value;
      && a.s.data[c].status.Waiting? && a.s.data[c].Idle()
      && AllocStep(a.s, a.l, a.s.(pool := b.s.pool), b.l, c, copies)
      && b.s == a.s.(pool := b.s.pool, data := a.s.data[c := a.s.data[c].(status := Status.Running)],
                     place := a.s.place[c := AtScheduled])
      && b.r.scheduled == a.r.scheduled + [c] && b.r.delayed == a.r.delayed && b.r.cur.None?
  {
    hide AllocStep, Planned;
  }

  lemma CurrentAlone(s: Sys, l: Log, r: Round, c: Id)
    requires Sound(s, l) && At(s, r) && r.cur == Some(c) && r.q.QCombined?
    ensures c in s.place && c in s.data && c !in s.combined && c !in s.paused && c !in r.delayed
    ensures s.data[c].status.Waiting? ==> c !in s.swapped && s.data[c].Cached() == 0
  {
    hide PoolOk, Exclusive, Refines, Journal, VictimList, BatchTokens;
    assert GoodAt(s, c);
  }

  lemma UnplannedTable(s: Sys, l: Log, s1: Sys, l1: Log, c: Id, copies: map<nat, nat>)
    requires AllocStep(s, l, s1, l1, c, copies) && c in s.data && s.data[c].Idle() && s.data[c].Cached() == 0
    ensures c in s1.pool.tables && s1.pool.tables[c] == []
  {
    hide Moved, PoolOk, Exclusive, LoggedIn, CeilDiv;
    CeilDivBounds(0, s.b);
  }

  lemma TakenAdrift(a: Stage, b: Stage, c: Id)
    requires c in a.s.data && c in a.s.place && c !in a.s.combined && c !in a.s.swapped && c !in a.s.paused
    requires b.s == a.s.(pool := b.s.pool, data := a.s.data[c := a.s.data[c].(status := Status.Running)],
                         place := a.s.place[c := AtScheduled])
    requires b.r.scheduled == a.r.scheduled + [c] && b.r.delayed == a.r.delayed && b.r.cur.None?
    requires c in b.s.pool.tables && b.s.pool.tables[c] == [] && c !in a.r.delayed
    ensures Adrift(b, c) && b.s.data[c].status.Running? && c in b.r.scheduled
  {
  }

  lemma {:induction false} LostStays(stages: seq<Stage>, moves: seq<Move>, i: nat, n: nat, x: Id)
    requires Course(stages, moves) && i <= n <= |moves| && Adrift(stages[i], x)
    ensures Adrift(stages[n], x)
  {
    hide Makes, Adrift;
    if i < n {
      LostStays(stages, moves, i, n - 1, x);
      AdriftStep(stages[n - 1], moves[n - 1], stages[n], x);
    }
  }

  /** No later step of the phase changes the place, the record or the table of such a request. */
  lemma AdriftStep(a: Stage, m: Move, b: Stage, x: Id)
    requires Adrift(a, x) && Makes(a, m, b)
    ensures Adrift(b, x) && b.s.place[x] == a.s.place[x] && b.s.data[x] == a.s.data[x]
    ensures Lookup(b.s.pool.tables, x) == Lookup(a.s.pool.tables, x)
  {
    hide Makes, InHandMakes, Adrift;
    if m.Popping? {
      PoppingBeside(a, b, x);
    } else if m.RestartingQueued? || m.RestartingPaused? || m.GivingUp? {
      RoomBeside(a, m, b, x);
    } else {
      TargetBeside(a, m, b, x);
    }
  }

  lemma PoppingBeside(a: Stage, b: Stage, x: Id)
    requires Adrift(a, x) && Makes(a, Popping, b)
    ensures Adrift(b, x) && b.s.place[x] == a.s.place[x] && b.s.data[x] == a.s.data[x]
    ensures Lookup(b.s.pool.tables, x) == Lookup(a.s.pool.tables, x)
  {
    assert a.s.combined[0] in a.s.combined;
    assert forall y :: y in a.s.combined[1..] ==> y in a.s.combined;
  }

  lemma RoomBeside(a: Stage, m: Move, b: Stage, x: Id)
    requires Adrift(a, x) && Makes(a, m, b) && (m.RestartingQueued? || m.RestartingPaused? || m.GivingUp?)
    ensures Adrift(b, x) && b.s.place[x] == a.s.place[x] && b.s.data[x] == a.s.data[x]
    ensures Lookup(b.s.pool.tables, x) == Lookup(a.s.pool.tables, x)
  {
    hide PoolOk, Remove;
    if m.RestartingQueued? {
      RemoveFewer(a.s.swapped, m.x);
    }
  }

  lemma {:induction false} RemoveFewer(s: seq<Id>, x: Id)
    ensures forall y :: y in Remove(s, x) ==> y in s
  {
    if s != [] {
      RemoveFewer(s[1..], x);
    }
  }

  lemma TargetBeside(a: Stage, m: Move, b: Stage, x: Id)
    requires Adrift(a, x) && Makes(a, m, b)
    requires m.Planning? || m.PuttingOff? || m.Ignoring? || m.Taking?
    ensures Adrift(b, x) && b.s.place[x] == a.s.place[x] && b.s.data[x] == a.s.data[x]
    ensures Lookup(b.s.pool.tables, x) == Lookup(a.s.pool.tables, x)
  {
    hide Moved, PoolOk, Exclusive, PendingLayout, LoggedIn;
  }

  lemma LostEnds(a: Stage, x: Id)
    requires Adrift(a, x)
    ensures !Inv(Ended(a))
  {
    hide Inv, Parted, ClearedAll;
    var ids := a.r.delayed;
    ClearedOthers(a.s, ids, x);
    ClearedFields(a.s, ids);
    var t := ClearedAll(a.s, ids);
    PartedStale(t, a.r, x);
    if Inv(Parted(t, a.r)) {
      if a.s.place[x].AtScheduled? {
        BatchOwns(Parted(t, a.r), x);
      } else {
        NotWaiting(Parted(t, a.r), x);
      }
    }
  }

  lemma {:induction false} ClearedOthers(s: Sys, ids: seq<Id>, x: Id)
    requires x !in ids && x in s.data
    ensures x in ClearedAll(s, ids).data && ClearedAll(s, ids).data[x] == s.data[x]
  {
    if ids != [] {
      var n := |ids| - 1;
      assert ids[n] in ids && forall y :: y in ids[..n] ==> y in ids;
      ClearedOthers(s, ids[..n], x);
    }
  }

  lemma {:induction false} ClearedFields(s: Sys, ids: seq<Id>)
    ensures var t := ClearedAll(s, ids);
      && t == s.(data := t.data) && t.data.Keys == s.data.Keys
  {
    if ids != [] {
      ClearedFields(s, ids[..|ids| - 1]);
    }
  }

  lemma PartedStale(s: Sys, r: Round, x: Id)
    requires x in s.place && x in s.data && x !in r.delayed
    requires x !in s.combined && (x in r.scheduled || s.place[x].AtDone?)
    ensures var e := Parted(s, r);
      && x in e.place && e.data == s.data && e.pool == s.pool
      && (if x in r.scheduled then e.place[x].AtBatch? else e.place[x].AtDone?)
  {
    var left := r.delayed + s.combined;
    SelectWithin(left, In(s.swapped));
    SelectWithin(left, In(s.waiting));
  }

  lemma NotWaiting(s: Sys, x: Id)
    requires Inv(s) && x in s.place && (s.place[x].AtBatch? || s.place[x].AtDone?)
    ensures x in s.data && !s.data[x].status.Waiting?
  {
    assert GoodAt(s, x);
  }

  lemma BatchOwns(s: Sys, c: Id)
    requires Inv(s) && c in s.place && (s.place[c].AtScheduled? || s.place[c].AtBatch?)
    ensures c in s.pool.tables && s.pool.tables[c] != []
  {
    assert GoodAt(s, c);
  }

  lemma RegisteredKnown(s: Sys, l: Log, r: Round, c: Id, x: Id)
    requires Sound(s, l) && At(s, r) && r.cur == Some(c) && r.q.QCombined? && x in s.swapped
    ensures s.split && x in s.place && c in s.place && c in s.data && s.place[c].AtCurrent?
    ensures !Stale(s.place, x) <==> x in s.combined || x in r.delayed || x == c
    ensures if Stale(s.place, x) then s.place[x].AtScheduled? || s.place[x].AtDone? else Unsettled(s.place[x])
    ensures s.data.Keys == s.place.Keys
  {
    hide PoolOk, Exclusive, Refines, Journal, AllGood, VictimList, BatchTokens;
  }

  lemma NotLeft(s: Sys, l: Log, r: Round, c: Id, x: Id)
    requires Sound(s, l) && At(s, r) && r.cur == Some(c) && r.q.QCombined? && x in s.swapped && Stale(s.place, x)
    ensures x !in r.delayed && x != c && x !in s.combined
    ensures x in s.place && (x in r.scheduled <==> s.place[x].AtScheduled?)
  {
    RegisteredKnown(s, l, r, c, x);
  }
}
