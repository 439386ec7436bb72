/** Vocabulary shared by every component: sequences without duplicates, and the
    rounded-up division by which tokens are counted in blocks. */
module Basics {
  type Id = nat

  datatype Option<+T> = None | Some(value: T)

  predicate NoDup<T(==)>(s: seq<T>) {
    forall i, j :: 0 <= i < j < |s| ==> s[i] != s[j]
  }

  /** Python's `list.remove`: drops the first occurrence. */
  function Remove<T(==)>(s: seq<T>, x: T): (r: seq<T>)
    ensures x !in s ==> r == s
  {
    if s == [] then []
    else if s[0] == x then s[1..]
    else [s[0]] + Remove(s[1..], x)
  }

  lemma {:induction false} RemoveKeepsOthers<T>(s: seq<T>, x: T)
    requires NoDup(s)
    ensures NoDup(Remove(s, x))
    ensures forall y :: y in Remove(s, x) <==> y in s && y != x
  {
    if s != [] {
      assert s == [s[0]] + s[1..];
      if s[0] != x {
        RemoveKeepsOthers(s[1..], x);
        var r := Remove(s[1..], x);
        assert Remove(s, x) == [s[0]] + r;
        assert s[0] !in s[1..];
        forall i, j | 0 <= i < j < |Remove(s, x)| ensures Remove(s, x)[i] != Remove(s, x)[j] {
          assert Remove(s, x)[j] == r[j - 1];
          assert r[j - 1] in r;
        }
      }
    }
  }

  lemma {:induction false} RemoveShortens<T>(s: seq<T>, x: T)
    requires x in s
    ensures |Remove(s, x)| == |s| - 1
  {
    if s[0] != x {
      RemoveShortens(s[1..], x);
    }
  }

  lemma UpdateTwice<V>(m: map<Id, V>, x: Id, a: V, b: V)
    ensures m[x := a][x := b] == m[x := b]
  {
  }

  /** The index of `x` in a sequence that lists it. */
  function IndexOf<T(==)>(s: seq<T>, x: T): (k: nat)
    requires x in s
    ensures k < |s| && s[k] == x
  {
    if s[0] == x then 0 else 1 + IndexOf(s[1..], x)
  }

  /** `(n + b - 1) // b`: the number of blocks of size `b` that `n` tokens fill. */
  function CeilDiv(n: nat, b: nat): nat
    requires b > 0
  {
    (n + b - 1) / b
  }

  lemma CeilDivBounds(n: nat, b: nat)
    requires b > 0
    ensures n <= CeilDiv(n, b) * b
    ensures CeilDiv(n, b) * b < n + b
    ensures n == 0 <==> CeilDiv(n, b) == 0
  {
    var q := (n + b - 1) / b;
    assert n + b - 1 == q * b + (n + b - 1) % b;
    if q >= 1 {
      MulMono(1, q, b);
    } else {
      MulMono(q, 0, b);
    }
  }

  lemma CeilDivMono(m: nat, n: nat, b: nat)
    requires b > 0 && m <= n
    ensures CeilDiv(m, b) <= CeilDiv(n, b)
  {
    CeilDivBounds(m, b);
    CeilDivBounds(n, b);
    var x, y := CeilDiv(m, b), CeilDiv(n, b);
    if y < x {
      MulMono(y, x - 1, b);
    }
  }

  lemma CeilDivLeast(n: nat, b: nat)
    requires b > 0
    ensures CeilDiv(n, b) <= n
  {
    CeilDivBounds(n, b);
    if n + 1 <= CeilDiv(n, b) {
      MulMono(n + 1, CeilDiv(n, b), b);
      MulMono(1, b, n);
    }
  }

  lemma MulMono(x: int, y: int, b: nat)
    requires x <= y
    ensures x * b <= y * b
  {
  }

  /** A position before `n` lies in one of the `CeilDiv(n, b)` blocks. */
  lemma PositionInBlock(p: nat, n: nat, b: nat)
    requires b > 0 && p < n
    ensures p / b < CeilDiv(n, b)
    ensures p == (p / b) * b + p % b
  {
    CeilDivBounds(n, b);
    var q, c := p / b, CeilDiv(n, b);
    assert p == q * b + p % b;
    if c <= q {
      MulMono(c, q, b);
    }
  }
}
