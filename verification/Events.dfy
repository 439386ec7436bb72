/** What each event of a run does to the scheduler's state. */
module Events {
  import opened Basics
  import opened Blocks
  import opened Sequences
  import opened Layouts
  import opened BlockManager
  import opened System
  import opened Memory
  import opened Steps
  import opened Rounds
  import opened Phases
  import opened Victims
  import opened Turns
  import opened Iterations
  import opened Ledgers
  import opened Outputs
  import opened Replies
  import opened Sampling

  /** What the model and the stop criteria contribute to one iteration: the sampling type, the token
      that a completely forwarded request gets, and what that token means for it. */
  datatype Answers = Answers(kind: Id -> Kind, token: Id -> Token, verdict: Id -> Verdict)

  datatype Event =
    | AddRequest(x: Id, prompt: seq<Token>)
    | ResumeCall(y: Id, ret: seq<Token>, maxModelLen: int, maxTokens: int)
    | AbortRequest(z: Id)
    | Iterate(guidance: Guidance, swapIn: nat, swapOut: nat, answers: Answers)

  function SamplesFor(ids: seq<Id>, a: Answers): seq<Sample> {
    seq(|ids|, i requires 0 <= i < |ids| => Sample(a.token(ids[i]), a.verdict(ids[i])))
  }

  /** An iteration as it happened: how its batch came about, the state in which it was forwarded, and the batch. */
  datatype Happening = Happening(it: Iteration, mid: Sys, plan: Plan)

  /** A fresh request with a prompt waits behind all others, with nothing cached; nothing else changes. */
  ghost predicate Added(s: Sys, s': Sys, x: Id, prompt: seq<Token>) {
    if x !in s.data && prompt != [] then
      && x in s'.data && s'.data[x].prompt == prompt && s'.data[x].output == [] && s'.data[x].status.Waiting?
      && s'.data[x].Cached() == 0 && s'.data[x].swapLength == 0 && s'.data[x].Idle()
      && s' == s.(data := s.data[x := s'.data[x]], place := s.place[x := AtWaiting], waiting := s.waiting + [x])
    else s' == s
  }

  /** The part of a call's return that the two length limits admit: all of it, or as much as there is room for;
      a request that is beyond a limit loses that many from the end, as a negative Python slice does. */
  ghost predicate Admitted(d: SeqRec, ret: seq<Token>, maxModelLen: int, maxTokens: int, tokens: seq<Token>) {
    var room := if maxModelLen - d.Len() <= maxTokens - |d.output| then maxModelLen - d.Len()
                else maxTokens - |d.output|;
    && tokens <= ret
    && |tokens| == if |ret| <= room then |ret| else if 0 <= room then room else if -room <= |ret| then |ret| + room
                   else 0
  }

  /** A paused request goes on with the admitted tokens of its call's return, to be forwarded next: preserved ones
      run, swapped ones are behind the swapped ones, and discarded ones are the first to wait. */
  ghost predicate Returned(s: Sys, s': Sys, x: Id, ret: seq<Token>, maxModelLen: int, maxTokens: int) {
    if x in s.paused then
      && x in s.data && x in s'.data && s.data[x].output <= s'.data[x].output && (
        var d, d' := s.data[x], s'.data[x];
        var tokens := d'.output[|d.output|..];
        && Admitted(d, ret, maxModelLen, maxTokens, tokens)
        && d' == d.(output := d.output + tokens, inflight := d.inflight + |tokens|, status := d'.status)
        && match s.paused[x]
           case Preserve => d'.status.Running? && s' == s.(data := s.data[x := d'], paused := s.paused - {x},
               place := s.place[x := AtRunning], running := s.running + [x])
           case Swap => d'.status.Swapped? && s' == s.(data := s.data[x := d'], paused := s.paused - {x},
               place := s.place[x := AtSwapped], swapped := s.swapped + [x])
           case Recompute => d'.status.Waiting? && s' == s.(data := s.data[x := d'], paused := s.paused - {x},
               place := s.place[x := AtWaiting], waiting := [x] + s.waiting))
    else s' == s
  }

  /** A request in one of the three queues ends and gives its blocks back; a paused one stays. */
  ghost predicate Aborted(s: Sys, s': Sys, x: Id) {
    if x in s.waiting || x in s.running || x in s.swapped then
      && x in s.data && s'.pool.tables == s.pool.tables - {x} && SameArenas(s.pool, s'.pool)
      && s' == s.(pool := s'.pool, data := s.data[x := s.data[x].(status := FinishedAborted)],
                  place := s.place[x := AtDone], waiting := Remove(s.waiting, x), running := Remove(s.running, x),
                  swapped := Remove(s.swapped, x))
    else s' == s
  }

  /** The batch was forwarded, and each of its requests with tokens was dealt with as its answer says, in order;
      whoever does not run any more has left the running list. */
  ghost predicate RepliedTo(mid: Sys, s': Sys, plan: Plan, a: Answers) {
    var answered := WithOutput(mid.data, plan.scheduled);
    && DealtSoFar(mid, s', plan.scheduled, answered, SamplesFor(answered, a), |answered|)
    && s'.running == Live(mid.running, s'.place) && s'.waiting == mid.waiting && s'.swapped == mid.swapped
    && s'.data.Keys == mid.data.Keys
  }

  /** One iteration: the batch is chosen, forwarded and answered. */
  ghost predicate Ran(v: Variant, maxNumSeqs: int, g: Guidance, lim: Limits, a: Answers, h: Happening, s: Sys, s': Sys)
  {
    Iterated(v, maxNumSeqs, g, lim, h.it, s, h.mid, h.plan) && RepliedTo(h.mid, s', h.plan, a)
  }

  /** What event `e` does in state `s`; `h` is what happened if it is an iteration. */
  ghost predicate Handled(v: Variant, maxNumSeqs: int, e: Event, h: Happening, s: Sys, s': Sys) {
    match e
    case AddRequest(x, prompt) => Added(s, s', x, prompt)
    case ResumeCall(x, ret, maxModelLen, maxTokens) => Returned(s, s', x, ret, maxModelLen, maxTokens)
    case AbortRequest(x) => Aborted(s, s', x)
    case Iterate(g, swapIn, swapOut, a) => Ran(v, maxNumSeqs, g, Allowance(v, swapIn, swapOut), a, h, s, s')
  }

  /** The scheduler's state, and its pending copies, before an event. */
  datatype Moment = Moment(s: Sys, l: Log)

  /** The moments before the events are linked by what each event does, up to the state `last` after them. */
  ghost predicate Linked(v: Variant, maxNumSeqs: int, events: seq<Event>, happened: seq<Happening>,
                         trace: seq<Moment>, last: Sys)
  {
    && |happened| == |trace| <= |events|
    && forall k {:trigger happened[k]} :: 0 <= k < |trace| ==>
         Handled(v, maxNumSeqs, events[k], happened[k], trace[k].s, if k + 1 < |trace| then trace[k + 1].s else last)
  }

  lemma LinkedStart(v: Variant, maxNumSeqs: int, events: seq<Event>, last: Sys)
    ensures Linked(v, maxNumSeqs, events, [], [], last)
  {
  }

  lemma LinkedNext(v: Variant, maxNumSeqs: int, events: seq<Event>, happened: seq<Happening>, trace: seq<Moment>,
                   m: Moment, h: Happening, last: Sys)
    requires Linked(v, maxNumSeqs, events, happened, trace, m.s) && |trace| < |events|
    requires Handled(v, maxNumSeqs, events[|trace|], h, m.s, last)
    ensures Linked(v, maxNumSeqs, events, happened + [h], trace + [m], last)
  {
    hide Handled;
    var hs, ms := happened + [h], trace + [m];
    forall k | 0 <= k < |ms|
      ensures Handled(v, maxNumSeqs, events[k], hs[k], ms[k].s, if k + 1 < |ms| then ms[k + 1].s else last)
    {
      if k < |trace| {
        assert hs[k] == happened[k] && ms[k] == trace[k];
        assert k + 1 < |trace| ==> ms[k + 1] == trace[k + 1];
      }
    }
  }

  lemma HandledIs(v: Variant, maxNumSeqs: int, e: Event, h: Happening, s: Sys, s': Sys)
    requires match e
      case AddRequest(x, prompt) => Added(s, s', x, prompt)
      case ResumeCall(x, ret, maxModelLen, maxTokens) => Returned(s, s', x, ret, maxModelLen, maxTokens)
      case AbortRequest(x) => Aborted(s, s', x)
      case Iterate(g, swapIn, swapOut, a) => Ran(v, maxNumSeqs, g, Allowance(v, swapIn, swapOut), a, h, s, s')
    ensures Handled(v, maxNumSeqs, e, h, s, s')
  {
  }

  lemma AddedIs(s: Sys, x: Id, prompt: seq<Token>)
    requires x !in s.data && prompt != []
    ensures Added(s, Arrived(s, x, prompt), x, prompt)
  {
  }

  lemma NotAdded(s: Sys, x: Id, prompt: seq<Token>)
    requires x in s.data || prompt == []
    ensures Added(s, s, x, prompt)
  {
  }

  lemma ReturnedIs(s: Sys, x: Id, ret: seq<Token>, maxModelLen: int, maxTokens: int)
    requires x in s.data && x in s.paused
    ensures Returned(s, Resumed(s, x, PySlice(ret, Allowed(s.data[x], |ret|, maxModelLen, maxTokens))), x, ret,
                     maxModelLen, maxTokens)
  {
    var d := s.data[x];
    var tokens := PySlice(ret, Allowed(d, |ret|, maxModelLen, maxTokens));
    AdmittedIs(d, ret, maxModelLen, maxTokens);
    hide Admitted, PySlice, Allowed;
    assert (d.output + tokens)[|d.output|..] == tokens;
  }

  lemma AdmittedIs(d: SeqRec, ret: seq<Token>, maxModelLen: int, maxTokens: int)
    ensures Admitted(d, ret, maxModelLen, maxTokens, PySlice(ret, Allowed(d, |ret|, maxModelLen, maxTokens)))
  {
  }

  lemma NotReturned(s: Sys, x: Id, ret: seq<Token>, maxModelLen: int, maxTokens: int)
    requires x !in s.paused
    ensures Returned(s, s, x, ret, maxModelLen, maxTokens)
  {
  }

  lemma AbortedIs(s: Sys, x: Id, pool: Pool)
    requires x in s.data && (x in s.waiting || x in s.running || x in s.swapped)
    requires pool.tables == s.pool.tables - {x} && SameArenas(s.pool, pool)
    ensures Aborted(s, Departed(s, x, FinishedAborted, pool), x)
  {
    hide Remove, SameArenas;
  }

  lemma NotAborted(s: Sys, x: Id)
    requires x !in s.waiting && x !in s.running && x !in s.swapped
    ensures Aborted(s, s, x)
  {
  }

  lemma RepliedToIs(mid: Sys, s': Sys, plan: Plan, a: Answers, answered: seq<Id>, outputs: seq<Sample>)
    requires answered == WithOutput(mid.data, plan.scheduled) && outputs == SamplesFor(answered, a)
    requires DealtSoFar(mid, s', plan.scheduled, answered, outputs, |outputs|)
    requires s'.running == Live(mid.running, s'.place) && s'.waiting == mid.waiting && s'.swapped == mid.swapped
    requires s'.data.Keys == mid.data.Keys
    ensures RepliedTo(mid, s', plan, a)
  {
    hide DealtSoFar, Live, WithOutput;
  }

  /** An empty batch needs no reply. */
  lemma NothingToReply(s: Sys, l: Log, plan: Plan, a: Answers)
    requires Sound(s, l) && plan.scheduled == []
    ensures RepliedTo(s, s, plan, a)
  {
    hide Sound, DealtSoFar, Live, PartlyForwarded;
    PartlyStart(s, l);
    DealtStart(s, s, [], [], []);
    StartDraining(s, l);
    assert WithOutput(s.data, plan.scheduled) == [];
    assert SamplesFor([], a) == [];
  }

  lemma RanIs(v: Variant, maxNumSeqs: int, g: Guidance, lim: Limits, a: Answers, h: Happening, s: Sys, s': Sys)
    requires Iterated(v, maxNumSeqs, g, lim, h.it, s, h.mid, h.plan) && RepliedTo(h.mid, s', h.plan, a)
    ensures Ran(v, maxNumSeqs, g, lim, a, h, s, s')
  {
  }

  /** What a completely forwarded request gets: its own token, and then what the verdict on it asks for.  A pause is
      of the mode asked for, except that a swap that the CPU has no room for preserves. */
  lemma RepliesAsAsked(mid: Sys, s': Sys, plan: Plan, a: Answers, k: nat)
    requires RepliedTo(mid, s', plan, a) && k < |WithOutput(mid.data, plan.scheduled)|
    requires var x := WithOutput(mid.data, plan.scheduled)[k];
      x in mid.data && mid.data[x].inflight == mid.data[x].runningInflight
    ensures var x := WithOutput(mid.data, plan.scheduled)[k];
      && x in mid.pool.tables && x in s'.data && s'.data[x].prompt == mid.data[x].prompt
      && s'.data[x].output == mid.data[x].output + [a.token(x)]
      && (a.verdict(x).Continue? ==>
            && x !in s'.paused && s'.data[x].status.Running?
            && Lookup(s'.pool.tables, x) == Some(mid.pool.tables[x]) && s'.data[x].Cached() == mid.data[x].Len())
      && (a.verdict(x).Finish? ==>
            && x !in s'.paused && x !in s'.pool.tables && s'.data[x].status.IsFinished()
            && (a.verdict(x).capped <==> s'.data[x].status.FinishedLengthCapped?))
      && (a.verdict(x).Pause? ==> x in s'.paused && s'.data[x].status.PausedApi?)
    ensures var x := WithOutput(mid.data, plan.scheduled)[k];
      a.verdict(x).Pause? ==>
        var t, mode, p := mid.pool.tables[x], a.verdict(x).mode, s'.paused[x];
        var room := TurnRoom(mid, WithOutput(mid.data, plan.scheduled),
                             SamplesFor(WithOutput(mid.data, plan.scheduled), a), k);
        && (p.Preserve? <==> mode.Preserve? || (mode.Swap? && |OnDevice(t, GPU)| > room))
        && (p.Swap? <==> mode.Swap? && |OnDevice(t, GPU)| <= room)
        && (p.Preserve? ==> Lookup(s'.pool.tables, x) == Some(t))
        && (p.Swap? ==> x in s'.pool.tables && |s'.pool.tables[x]| == |t| && GpuPrefix(s'.pool.tables[x], 0))
        && (p.Recompute? ==> x !in s'.pool.tables)
        && s'.data[x].Cached() == if p.Recompute? then 0 else mid.data[x].Len()
  {
    hide WithOutput, TurnRoom, Live, GpuPrefix, OnDevice;
    var answered := WithOutput(mid.data, plan.scheduled);
    var outputs := SamplesFor(answered, a);
    assert DealtWith(mid, s', answered[k], outputs[k], TurnRoom(mid, answered, outputs, k));
  }
}
