/** The policies sort by priority, highest first, with Python's stable `sorted`. */
module Sorting {
  import opened Basics

  function Insert(x: Id, s: seq<Id>, priority: Id -> real): seq<Id> {
    if s == [] || priority(x) >= priority(s[0]) then [x] + s
    else [s[0]] + Insert(x, s[1..], priority)
  }

  function SortedBy(s: seq<Id>, priority: Id -> real): seq<Id> {
    if s == [] then [] else Insert(s[0], SortedBy(s[1..], priority), priority)
  }

  lemma {:induction false} InsertAdds(x: Id, s: seq<Id>, priority: Id -> real)
    ensures multiset(Insert(x, s, priority)) == multiset(s) + multiset{x}
  {
    if s != [] {
      assert s == [s[0]] + s[1..];
      if priority(x) < priority(s[0]) {
        InsertAdds(x, s[1..], priority);
      }
    }
  }

  /** Sorting loses and repeats no request. */
  lemma {:induction false} SortedPermutes(s: seq<Id>, priority: Id -> real)
    ensures multiset(SortedBy(s, priority)) == multiset(s)
  {
    if s != [] {
      assert s == [s[0]] + s[1..];
      SortedPermutes(s[1..], priority);
      InsertAdds(s[0], SortedBy(s[1..], priority), priority);
    }
  }

  ghost predicate Descending(s: seq<Id>, priority: Id -> real) {
    forall i, j :: 0 <= i < j < |s| ==> priority(s[i]) >= priority(s[j])
  }

  lemma {:induction false} InsertOrdered(x: Id, s: seq<Id>, priority: Id -> real)
    requires Descending(s, priority)
    ensures Descending(Insert(x, s, priority), priority)
  {
    if s != [] && priority(x) < priority(s[0]) {
      var r := Insert(x, s[1..], priority);
      InsertOrdered(x, s[1..], priority);
      InsertAdds(x, s[1..], priority);
      forall y | y in r ensures priority(s[0]) >= priority(y) {
        assert y in multiset(r);
      }
    }
  }

  lemma {:induction false} SortedDescends(s: seq<Id>, priority: Id -> real)
    ensures Descending(SortedBy(s, priority), priority)
  {
    if s != [] {
      SortedDescends(s[1..], priority);
      InsertOrdered(s[0], SortedBy(s[1..], priority), priority);
    }
  }

  /** The requests with a given property, in their order. */
  function Select(s: seq<Id>, chosen: Id -> bool): (r: seq<Id>)
    ensures forall x :: x in r <==> x in s && chosen(x)
  {
    if s == [] then [] else (if chosen(s[0]) then [s[0]] else []) + Select(s[1..], chosen)
  }

  function Ranked(priority: Id -> real, k: real): Id -> bool {
    (y: Id) => priority(y) == k
  }

  function Not(chosen: Id -> bool): Id -> bool {
    (y: Id) => !chosen(y)
  }

  lemma {:induction false} SelectInsert(x: Id, s: seq<Id>, priority: Id -> real, k: real)
    ensures Select(Insert(x, s, priority), Ranked(priority, k)) ==
            (if priority(x) == k then [x] else []) + Select(s, Ranked(priority, k))
  {
    if s == [] || priority(x) >= priority(s[0]) {
      assert ([x] + s)[1..] == s;
    } else {
      SelectInsert(x, s[1..], priority, k);
      var r := Insert(x, s[1..], priority);
      assert ([s[0]] + r)[1..] == r;
    }
  }

  /** Requests of equal priority keep their order. */
  lemma {:induction false} SortedStable(s: seq<Id>, priority: Id -> real, k: real)
    ensures Select(SortedBy(s, priority), Ranked(priority, k)) == Select(s, Ranked(priority, k))
  {
    if s != [] {
      SortedStable(s[1..], priority, k);
      SelectInsert(s[0], SortedBy(s[1..], priority), priority, k);
    }
  }

  lemma {:induction false} SelectWithin(s: seq<Id>, chosen: Id -> bool)
    ensures forall x :: x in Select(s, chosen) ==> x in s
  {
    if s != [] {
      SelectWithin(s[1..], chosen);
    }
  }

  lemma {:induction false} SelectMember(s: seq<Id>, chosen: Id -> bool, x: Id)
    requires x in s && chosen(x)
    ensures x in Select(s, chosen)
  {
    if s[0] != x {
      SelectMember(s[1..], chosen, x);
    }
  }

  lemma {:induction false} SelectNoDup(s: seq<Id>, chosen: Id -> bool)
    requires NoDup(s)
    ensures NoDup(Select(s, chosen))
  {
    if s != [] {
      var r := Select(s[1..], chosen);
      SelectNoDup(s[1..], chosen);
      assert s[0] !in s[1..];
      assert forall i :: 0 <= i < |r| ==> r[i] in r;
    }
  }

  /** Chosen requests first, each part in its own order. */
  function Partition(s: seq<Id>, chosen: Id -> bool): seq<Id> {
    Select(s, chosen) + Select(s, Not(chosen))
  }

  lemma {:induction false} PartitionPermutes(s: seq<Id>, chosen: Id -> bool)
    ensures multiset(Partition(s, chosen)) == multiset(s)
  {
    if s != [] {
      PartitionPermutes(s[1..], chosen);
      assert s == [s[0]] + s[1..];
      var a, b := Select(s[1..], chosen), Select(s[1..], Not(chosen));
      assert multiset(a + b) == multiset(a) + multiset(b);
    } else {
      assert Partition(s, chosen) == [];
    }
  }

  /** The chosen requests are a prefix of the partitioned list, and each part keeps the order it had. */
  lemma PartitionOrders(s: seq<Id>, chosen: Id -> bool)
    ensures var p, n := Partition(s, chosen), |Select(s, chosen)|;
      && n <= |p| && Subsequence(p[..n], s) && Subsequence(p[n..], s)
      && (forall i :: 0 <= i < n ==> chosen(p[i])) && (forall i :: n <= i < |p| ==> !chosen(p[i]))
  {
    var a, b := Select(s, chosen), Select(s, Not(chosen));
    SelectChosen(s, chosen);
    SelectChosen(s, Not(chosen));
    assert Partition(s, chosen)[..|a|] == a && Partition(s, chosen)[|a|..] == b;
    forall i | |a| <= i < |a + b| ensures !chosen((a + b)[i]) {
      assert Not(chosen)(b[i - |a|]);
    }
  }

  /** `t` is `s` without some of its entries. */
  ghost predicate Subsequence(t: seq<Id>, s: seq<Id>) {
    t == [] || (s != [] && (Subsequence(t, s[1..]) || (t[0] == s[0] && Subsequence(t[1..], s[1..]))))
  }

  /** Leaving entries out keeps an order. */
  lemma {:induction false} SubsequenceDescends(t: seq<Id>, s: seq<Id>, priority: Id -> real)
    requires Subsequence(t, s) && Descending(s, priority)
    ensures Descending(t, priority) && forall x :: x in t ==> x in s
  {
    if t != [] {
      assert Descending(s[1..], priority);
      if Subsequence(t, s[1..]) {
        SubsequenceDescends(t, s[1..], priority);
      } else {
        SubsequenceDescends(t[1..], s[1..], priority);
        assert t == [s[0]] + t[1..] && s == [s[0]] + s[1..];
        forall j | 0 < j < |t| ensures priority(s[0]) >= priority(t[j]) {
          assert t[j] in t[1..];
          FirstHighest(s, priority, t[j]);
        }
        DescendingLonger(t, priority);
      }
    }
  }

  lemma FirstHighest(s: seq<Id>, priority: Id -> real, x: Id)
    requires s != [] && Descending(s, priority) && x in s
    ensures priority(s[0]) >= priority(x)
  {
    var i :| 0 <= i < |s| && s[i] == x;
  }

  lemma DescendingLonger(t: seq<Id>, priority: Id -> real)
    requires t != [] && Descending(t[1..], priority) && forall j :: 0 < j < |t| ==> priority(t[0]) >= priority(t[j])
    ensures Descending(t, priority)
  {
    forall i, j | 0 < i < j < |t| ensures priority(t[i]) >= priority(t[j]) {
      assert t[i] == t[1..][i - 1] && t[j] == t[1..][j - 1];
    }
  }

  lemma {:induction false} SelectChosen(s: seq<Id>, chosen: Id -> bool)
    ensures Subsequence(Select(s, chosen), s)
    ensures forall i :: 0 <= i < |Select(s, chosen)| ==> chosen(Select(s, chosen)[i])
  {
    if s != [] {
      var t, r := Select(s, chosen), Select(s[1..], chosen);
      SelectChosen(s[1..], chosen);
      if chosen(s[0]) {
        assert t == [s[0]] + r && t[1..] == r;
        assert Subsequence(t[1..], s[1..]);
        forall i | 0 <= i < |t| ensures chosen(t[i]) {
          assert i > 0 ==> t[i] == r[i - 1];
        }
      } else {
        assert t == [] + r && t == r;
        assert Subsequence(t, s[1..]);
      }
    }
  }

  lemma PermutedMembers(s: seq<Id>, t: seq<Id>)
    requires multiset(s) == multiset(t) && NoDup(s)
    ensures NoDup(t) && |t| == |s|
    ensures forall x :: x in t <==> x in s
  {
    NoDupCounts(s);
    CountsNoDup(t);
    assert forall x :: x in t <==> x in multiset(t);
    assert forall x :: x in s <==> x in multiset(s);
    assert |multiset(s)| == |s| && |multiset(t)| == |t|;
  }

  lemma {:induction false} NoDupCounts(s: seq<Id>)
    requires NoDup(s)
    ensures forall x :: multiset(s)[x] <= 1
  {
    if s != [] {
      assert s == [s[0]] + s[1..];
      assert s[0] !in s[1..];
      NoDupCounts(s[1..]);
    }
  }

  lemma {:induction false} CountsNoDup(s: seq<Id>)
    requires forall x :: multiset(s)[x] <= 1
    ensures NoDup(s)
  {
    if s != [] {
      assert s == [s[0]] + s[1..];
      assert forall x :: multiset(s[1..])[x] <= multiset(s)[x];
      CountsNoDup(s[1..]);
      assert multiset(s)[s[0]] == 1 + multiset(s[1..])[s[0]];
      assert s[0] !in s[1..];
    }
  }
}
