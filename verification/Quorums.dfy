/** Majorities and the commit point: the order statistic that try_decide reads off the
    sorted acknowledgements (tm-paxos-internal.hh). */
module Quorums {
  import opened Common

  function Quorum(n: nat): nat { n / 2 + 1 }

  // A quorum is the smallest majority: k members are enough exactly when they are more than half.
  lemma QuorumIs(n: nat, k: nat)
    ensures k >= Quorum(n) <==> 2 * k > n
  {
  }

  // Any two majorities of n replicas share a member.
  lemma QuorumsMeet(n: nat, a: set<nat>, b: set<nat>) returns (k: nat)
    requires a <= Below(n) && b <= Below(n)
    requires |a| >= Quorum(n) && |b| >= Quorum(n)
    ensures k in a && k in b
  {
    if a * b == {} {
      assert |a + b| == |a| + |b|;
      SubsetCard(a + b, Below(n));
      assert false;
    }
    k :| k in a * b;
  }

  // ---- sorting the acknowledgements ----

  predicate Sorted(s: seq<nat>) {
    forall i, j | 0 <= i < j < |s| :: s[i] <= s[j]
  }

  function Insert(x: nat, s: seq<nat>): (r: seq<nat>)
    requires Sorted(s)
    ensures |r| == |s| + 1
    ensures r[0] == if |s| == 0 || x <= s[0] then x else s[0]
    ensures Sorted(r)
  {
    if |s| == 0 || x <= s[0] then [x] + s
    else
      var t := Insert(x, s[1..]);
      assert forall j | 0 <= j < |t| :: t[0] <= t[j];
      [s[0]] + t
  }

  function Sort(s: seq<nat>): (r: seq<nat>)
    ensures |r| == |s| && Sorted(r)
  {
    if |s| == 0 then [] else Insert(Last(s), Sort(Front(s)))
  }

  lemma {:induction false} InsertPermutes(x: nat, s: seq<nat>)
    requires Sorted(s)
    ensures multiset(Insert(x, s)) == multiset(s) + multiset{x}
  {
    if |s| == 0 || x <= s[0] {
    } else {
      InsertPermutes(x, s[1..]);
      assert s == [s[0]] + s[1..];
    }
  }

  lemma {:induction false} SortPermutes(s: seq<nat>)
    ensures multiset(Sort(s)) == multiset(s)
  {
    if |s| == 0 {
    } else {
      SortPermutes(Front(s));
      InsertPermutes(Last(s), Sort(Front(s)));
      assert s == Front(s) + [Last(s)];
    }
  }

  // How many entries are at least m.
  function CountGe(s: seq<nat>, m: nat): nat {
    if |s| == 0 then 0 else CountGe(Front(s), m) + (if Last(s) >= m then 1 else 0)
  }

  lemma {:induction false} CountGeAppend(a: seq<nat>, b: seq<nat>, m: nat)
    ensures CountGe(a + b, m) == CountGe(a, m) + CountGe(b, m)
  {
    if |b| == 0 {
      assert a + b == a;
    } else {
      CountGeAppend(a, Front(b), m);
      assert Front(a + b) == a + Front(b);
    }
  }

  lemma {:induction false} CountGeInsert(x: nat, s: seq<nat>, m: nat)
    requires Sorted(s)
    ensures CountGe(Insert(x, s), m) == CountGe(s, m) + (if x >= m then 1 else 0)
  {
    assert CountGe([x], m) == (if x >= m then 1 else 0) by { assert Front([x]) == []; }
    if |s| == 0 || x <= s[0] {
      CountGeAppend([x], s, m);
    } else {
      CountGeInsert(x, s[1..], m);
      CountGeAppend([s[0]], s[1..], m);
      CountGeAppend([s[0]], Insert(x, s[1..]), m);
      assert s == [s[0]] + s[1..];
    }
  }

  lemma {:induction false} CountGeSort(s: seq<nat>, m: nat)
    ensures CountGe(Sort(s), m) == CountGe(s, m)
  {
    if |s| == 0 {
    } else {
      CountGeSort(Front(s), m);
      CountGeInsert(Last(s), Sort(Front(s)), m);
    }
  }

  lemma {:induction false} CountGeAll(s: seq<nat>, m: nat)
    requires forall i | 0 <= i < |s| :: s[i] >= m
    ensures CountGe(s, m) == |s|
  {
    if |s| == 0 {
    } else {
      CountGeAll(Front(s), m);
    }
  }

  lemma {:induction false} CountGeNone(s: seq<nat>, m: nat)
    requires forall i | 0 <= i < |s| :: s[i] < m
    ensures CountGe(s, m) == 0
  {
    if |s| == 0 {
    } else {
      CountGeNone(Front(s), m);
    }
  }

  lemma {:induction false} CountGeBound(s: seq<nat>, m: nat)
    ensures CountGe(s, m) <= |s|
  {
    if |s| == 0 {
    } else {
      CountGeBound(Front(s), m);
    }
  }

  // In a sorted sequence, entry k is >= m exactly when at least |s| - k entries are.
  lemma SortedCount(s: seq<nat>, k: nat, m: nat)
    requires Sorted(s) && k < |s|
    ensures s[k] >= m <==> CountGe(s, m) >= |s| - k
  {
    if s[k] >= m {
      CountFrom(s, k, m);
    } else {
      CountAfter(s, k, m);
    }
  }

  lemma CountFrom(s: seq<nat>, k: nat, m: nat)
    requires k <= |s| && forall j | k <= j < |s| :: s[j] >= m
    ensures CountGe(s, m) >= |s| - k
  {
    var tail := s[k..];
    assert s == s[..k] + tail;
    CountGeAppend(s[..k], tail, m);
    CountGeAll(tail, m);
  }

  lemma CountAfter(s: seq<nat>, k: nat, m: nat)
    requires k < |s| && forall j | 0 <= j <= k :: s[j] < m
    ensures CountGe(s, m) < |s| - k
  {
    var head, tail := s[..k + 1], s[k + 1..];
    assert s == head + tail;
    CountGeAppend(head, tail, m);
    CountGeNone(head, m);
    CountGeBound(tail, m);
  }

  // ---- the commit point ----

  // The slot try_decide commits up to: sorted_acks[n - quorum].
  function CommitPoint(acks: seq<nat>): nat {
    if |acks| == 0 then 0 else Sort(acks)[|acks| - Quorum(|acks|)]
  }

  // The replicas that acknowledged up to m.
  function AtLeast(acks: seq<nat>, m: nat): set<nat> {
    set j | 0 <= j < |acks| && acks[j] >= m
  }

  lemma {:induction false} AtLeastCount(acks: seq<nat>, m: nat)
    ensures |AtLeast(acks, m)| == CountGe(acks, m)
  {
    if |acks| > 0 {
      var f := Front(acks);
      AtLeastCount(f, m);
      var here := if Last(acks) >= m then {|acks| - 1} else {};
      assert AtLeast(acks, m) == AtLeast(f, m) + here;
    } else {
      assert AtLeast(acks, m) == {};
    }
  }

  // The commit point is the exact majority order statistic: a slot is at or below it
  // if and only if more than half have acknowledged that far.
  lemma CommitPointIsMajority(acks: seq<nat>, m: nat)
    requires |acks| > 0
    ensures m <= CommitPoint(acks) <==> 2 * |AtLeast(acks, m)| > |acks|
    ensures m <= CommitPoint(acks) <==> |AtLeast(acks, m)| >= Quorum(|acks|)
  {
    QuorumIs(|acks|, |AtLeast(acks, m)|);
    var k := |acks| - Quorum(|acks|);
    SortedCount(Sort(acks), k, m);
    CountGeSort(acks, m);
    AtLeastCount(acks, m);
  }

  // ---- the smallest acknowledgement ----

  function MinOf(acks: seq<nat>): (m: nat)
    requires |acks| > 0
    ensures m in acks
    ensures forall v | v in acks :: m <= v
  {
    if |acks| == 1 then acks[0]
    else
      var m := MinOf(Front(acks));
      assert forall v | v in acks :: v in Front(acks) || v == Last(acks);
      if Last(acks) < m then Last(acks) else m
  }

  // Truncation never overtakes the commit point.
  lemma MinBelowCommitPoint(acks: seq<nat>)
    requires |acks| > 0
    ensures MinOf(acks) <= CommitPoint(acks)
  {
    var m := MinOf(acks);
    CommitPointIsMajority(acks, m);
    assert AtLeast(acks, m) == Below(|acks|) by {
      forall j: nat | j < |acks| ensures acks[j] >= m { assert acks[j] in acks; }
    }
  }

  // With more acknowledgements the commit point can only rise.
  lemma CommitPointMonotone(a: seq<nat>, b: seq<nat>)
    requires |a| == |b| > 0
    requires forall j | 0 <= j < |a| :: a[j] <= b[j]
    ensures CommitPoint(a) <= CommitPoint(b)
  {
    var m := CommitPoint(a);
    CommitPointIsMajority(a, m);
    CommitPointIsMajority(b, m);
    SubsetCard(AtLeast(a, m), AtLeast(b, m));
  }

  // If every acknowledgement is at most m then so is the commit point.
  lemma CommitPointBound(acks: seq<nat>, m: nat)
    requires |acks| > 0
    requires forall j | 0 <= j < |acks| :: acks[j] <= m
    ensures CommitPoint(acks) <= m
  {
    var c := CommitPoint(acks);
    CommitPointIsMajority(acks, c);
    if AtLeast(acks, c) != {} {
      var j :| j in AtLeast(acks, c);
    } else {
      assert false;
    }
  }
}
