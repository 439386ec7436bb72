/** Starvation avoidance: how long a waiting request waits before it is moved to the front. */
module Starvation {
  import opened Basics

  datatype Wait = Wait(counter: nat, quantum: nat)

  /** The starvation counters of one sequence. */
  class StarvationCounter {
    const threshold: nat
    const quantumValue: nat
    var counter: nat
    var quantum: nat

    constructor (t: nat, q: nat)
      ensures threshold == t && quantumValue == q && counter == 0 && quantum == 0
    {
      threshold, quantumValue, counter, quantum := t, q, 0, 0;
    }

    method ResetPaused()
      modifies this
      ensures counter == 0 && quantum == 0
    {
      counter, quantum := 0, 0;
    }

    /** After the sequence was scheduled. */
    method CheckResetScheduled()
      modifies this
      ensures if old(quantum) > 0 then quantum == old(quantum) - 1 && counter == old(counter)
              else counter == 0 && quantum == 0
    {
      if quantum > 0 {
        quantum := quantum - 1;
      } else {
        counter := 0;
      }
    }

    method CheckHighPriority() returns (high: bool)
      modifies this
      ensures high <==> old(quantum) > 0
      ensures Wait(counter, quantum) == Checked(Wait(old(counter), old(quantum)), threshold, quantumValue)
    {
      if quantum > 0 {
        quantum := quantum - 1;
        return true;
      }
      if counter >= threshold {
        quantum := quantumValue;
        counter := 0;
      }
      return false;
    }

    method Increment()
      modifies this
      ensures Wait(counter, quantum) == Incremented(Wait(old(counter), old(quantum)))
    {
      if quantum == 0 {
        counter := counter + 1;
      }
    }

    /** One iteration in which the sequence, processed before, is offered and stays waiting. */
    method WaitingIteration() returns (high: bool)
      modifies this
      ensures high <==> old(quantum) > 0
      ensures Wait(counter, quantum) == Next(Wait(old(counter), old(quantum)), threshold, quantumValue)
    {
      high := CheckHighPriority();
      Increment();
    }
  }

  function Checked(w: Wait, t: nat, q: nat): Wait {
    if w.quantum > 0 then Wait(w.counter, w.quantum - 1)
    else if w.counter >= t then Wait(0, q)
    else w
  }

  function Incremented(w: Wait): Wait {
    if w.quantum == 0 then Wait(w.counter + 1, 0) else w
  }

  function Next(w: Wait, t: nat, q: nat): Wait {
    Incremented(Checked(w, t, q))
  }

  /** The state after `n` waiting iterations. */
  function After(w: Wait, t: nat, q: nat, n: nat): Wait {
    if n == 0 then w else Next(After(w, t, q, n - 1), t, q)
  }

  /** Whether waiting iteration `n`, counted from one, moves the sequence to the front. */
  predicate Promoted(w: Wait, t: nat, q: nat, n: nat)
    requires n >= 1
  {
    After(w, t, q, n - 1).quantum > 0
  }

  lemma DivStep(x: nat, m: nat)
    requires m > 0
    ensures (x + 1) % m == if x % m + 1 == m then 0 else x % m + 1
  {
    var d, r := x / m, x % m;
    assert x == d * m + r;
    if r + 1 == m {
      assert x + 1 == (d + 1) * m;
      ModUnique(x + 1, d + 1, 0, m);
    } else {
      ModUnique(x + 1, d, r + 1, m);
    }
  }

  lemma ModUnique(x: nat, d: nat, r: nat, m: nat)
    requires r < m && x == d * m + r
    ensures x % m == r
  {
    var e := x / m;
    assert x == e * m + x % m;
    if e < d { MulMono(e + 1, d, m); }
    if d < e { MulMono(d + 1, e, m); }
  }

  /** The state after `n` iterations, from counter `c` and no quantum. */
  lemma {:induction false} WaitState(c: nat, t: nat, q: nat, n: nat)
    requires c <= t && q >= 1 && t >= 1
    ensures var w := After(Wait(c, 0), t, q, n);
      if n <= t - c then w == Wait(c + n, 0)
      else if n == t - c + 1 then w == Wait(0, q)
      else var r := (n - (t - c + 2)) % (t + q);
        w == if r < q - 1 then Wait(0, q - 1 - r) else if r == t + q - 1 then Wait(0, q) else Wait(r - q + 2, 0)
  {
    if n > 0 {
      WaitState(c, t, q, n - 1);
      if n > t - c + 2 {
        DivStep(n - 1 - (t - c + 2), t + q);
      } else if n == t - c + 2 {
        ModUnique(0, 0, 0, t + q);
      }
    }
  }

  /** Exactly which waiting iterations promote a sequence that starts with counter `c` and no quantum:
      first iteration `t - c + 2`, and from then on the first `q` of every `t + q`. */
  lemma PromotedExactly(c: nat, t: nat, q: nat, n: nat)
    requires c <= t && q >= 1 && t >= 1 && n >= 1
    ensures Promoted(Wait(c, 0), t, q, n) <==> n >= t - c + 2 && (n - (t - c + 2)) % (t + q) < q
  {
    WaitState(c, t, q, n - 1);
    if n > t - c + 2 {
      DivStep(n - 1 - (t - c + 2), t + q);
    } else if n == t - c + 2 {
      ModUnique(0, 0, 0, t + q);
    }
  }

  /** How many of the `len` iterations from `n` on promote the sequence. */
  function Promotions(w: Wait, t: nat, q: nat, n: nat, len: nat): nat
    requires n >= 1
  {
    if len == 0 then 0
    else Promotions(w, t, q, n, len - 1) + if Promoted(w, t, q, n + len - 1) then 1 else 0
  }

  /** How many numbers below `k` lie in the first `q` of their period. */
  function Early(q: nat, p: nat, k: nat): nat
    requires p > 0
  {
    if k == 0 then 0 else Early(q, p, k - 1) + if (k - 1) % p < q then 1 else 0
  }

  lemma {:induction false} EarlyShift(q: nat, p: nat, k: nat)
    requires 0 < p && q <= p
    ensures Early(q, p, k + p) == Early(q, p, k) + q
  {
    if k == 0 {
      EarlyFirst(q, p, p);
    } else {
      EarlyShift(q, p, k - 1);
      var d, r := (k - 1) / p, (k - 1) % p;
      assert k - 1 == d * p + r;
      assert k - 1 + p == (d + 1) * p + r;
      ModUnique(k - 1 + p, d + 1, r, p);
    }
  }

  lemma {:induction false} EarlyFirst(q: nat, p: nat, k: nat)
    requires 0 < p && k <= p && q <= p
    ensures Early(q, p, k) == if k <= q then k else q
  {
    if k > 0 {
      EarlyFirst(q, p, k - 1);
      ModUnique(k - 1, 0, k - 1, p);
    }
  }

  lemma {:induction false} PromotionsEarly(c: nat, t: nat, q: nat, n: nat, len: nat)
    requires c <= t && q >= 1 && t >= 1 && n >= t - c + 2
    ensures var k := n - (t - c + 2);
      Promotions(Wait(c, 0), t, q, n, len) == Early(q, t + q, k + len) - Early(q, t + q, k)
  {
    if len > 0 {
      PromotionsEarly(c, t, q, n, len - 1);
      PromotedExactly(c, t, q, n + len - 1);
    }
  }

  /** From its first promotion on, exactly `q` of every `t + q` consecutive waiting iterations
      promote the sequence. */
  lemma PromotionRate(c: nat, t: nat, q: nat, n: nat)
    requires c <= t && q >= 1 && t >= 1 && n >= t - c + 2
    ensures Promotions(Wait(c, 0), t, q, n, t + q) == q
  {
    PromotionsEarly(c, t, q, n, t + q);
    EarlyShift(q, t + q, n - (t - c + 2));
  }
}
