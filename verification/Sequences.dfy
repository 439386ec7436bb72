/** A request's one sequence: its tokens, the counters that say where its KV
    cache lives, and the work planned for the current iteration.  The scheduler
    holds these values in its `data` dictionary and assigns updated ones back. */
module Sequences {
  import opened Basics

  type Token = int

  datatype Status =
    | Waiting | Running | Swapped | PausedApi | ResumedApi
    | FinishedStopped | FinishedLengthCapped | FinishedAborted | FinishedIgnored
  {
    predicate IsFinished() {
      FinishedStopped? || FinishedLengthCapped? || FinishedAborted? || FinishedIgnored?
    }
  }

  /** The fields of a sequence as a value. Discard and in-flight lengths count tokens, swap lengths count blocks. */
  datatype SeqRec = SeqRec(
    prompt: seq<Token>, output: seq<Token>, status: Status,
    discardStart: int, discardLength: int,
    swapStart: int, swapLength: int,
    inflight: int,
    resumeDiscard: int, resumeSwap: int, runningInflight: int)
  {
    function Tokens(): seq<Token> {
      prompt + output
    }

    function Len(): nat {
      |prompt| + |output|
    }

    predicate SameTokens(that: SeqRec) {
      prompt == that.prompt && output == that.output
    }

    /** The same tokens as before, and as many of them cached, or none. */
    predicate Remains(that: SeqRec) {
      SameTokens(that) && (inflight == that.inflight || inflight == Len())
    }

    /** Tokens are only ever appended. */
    predicate GrowsInto(that: SeqRec) {
      that.prompt == prompt && output <= that.output
    }

    /** The number of leading tokens whose keys and values are in the cache. */
    function Cached(): int {
      Len() - inflight
    }

    predicate Idle() {
      resumeDiscard == 0 && resumeSwap == 0 && runningInflight == 0
    }

    /** Counters in range, nothing discarded, and at least one token still to forward. */
    predicate Sane() {
      && 1 <= inflight <= Len()
      && 0 <= swapLength
      && discardStart == 0 && discardLength == 0 && resumeDiscard == 0
    }

    /** A workload that `populate_workload` may legally hold. */
    predicate Workload() {
      && resumeDiscard == 0
      && 0 <= resumeSwap <= swapLength
      && 0 <= runningInflight <= inflight
      && (runningInflight > 0 ==> resumeSwap == swapLength)
    }

    function Populate(d: int, s: int, r: int): SeqRec {
      this.(resumeDiscard := d, resumeSwap := s, runningInflight := r)
    }

    function Cleared(): SeqRec {
      Populate(0, 0, 0)
    }

    /** Everything to recompute: no cached token, nothing swapped. */
    function Restarted(): SeqRec {
      Cleared().(discardStart := 0, discardLength := 0, swapStart := 0, swapLength := 0, inflight := Len())
    }

    function Forwarded(): SeqRec {
      this.(discardLength := discardLength - resumeDiscard,
            swapStart := swapStart + resumeSwap,
            swapLength := swapLength - resumeSwap,
            inflight := inflight - runningInflight).Cleared()
    }

    function Appended(t: Token): SeqRec {
      this.(output := output + [t], inflight := inflight + 1)
    }
  }

  /** What an iteration that forwards `n` tokens of a sequence does to it: at most one token is appended,
      only if no token was left to forward, and `n` more tokens are cached, unless it is to restart. */
  predicate Advanced(d: SeqRec, d': SeqRec, n: int) {
    && d.GrowsInto(d') && |d'.output| <= |d.output| + 1
    && (d'.output != d.output ==> d.inflight == n)
    && (d'.Cached() == d.Cached() + n || d'.Cached() == 0)
  }
}
