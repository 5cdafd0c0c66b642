/** Small shared vocabulary: optional values, results and two arithmetic helpers. */
module Common {

  datatype Option<+T> = None | Some(value: T)

  // A value, or the exception that was thrown instead.
  datatype Result<+T> = Ok(value: T) | Err(error: string) {
    predicate IsFailure() { Err? }

    function PropagateFailure<U>(): Result<U>
      requires Err?
    {
      Err(error)
    }

    function Extract(): T
      requires Ok?
    {
      value
    }
  }

  function Min(a: int, b: int): int { if a <= b then a else b }

  function Max(a: int, b: int): int { if a <= b then b else a }

  // The last element and everything before it.
  function Last<T>(s: seq<T>): T
    requires |s| > 0
  {
    s[|s| - 1]
  }

  function Front<T>(s: seq<T>): seq<T>
    requires |s| > 0
  {
    s[..|s| - 1]
  }

  // A part of a finite set has at most as many elements.
  lemma {:induction false} SubsetCard<T>(a: set<T>, b: set<T>)
    requires a <= b
    ensures |a| <= |b|
    decreases a
  {
    if a == {} {
    } else {
      var x :| x in a;
      SubsetCard(a - {x}, b - {x});
    }
  }

  // { 0, ..., n-1 } as a set.
  function Below(n: nat): (s: set<nat>)
    ensures forall k: nat :: k in s <==> k < n
    ensures |s| == n
  {
    if n == 0 then {} else Below(n - 1) + {n - 1}
  }

  lemma ModOfMultiple(n: nat, k: nat, i: nat)
    requires i < n
    ensures (n * k + i) % n == i
  {
    var x := n * k + i;
    QuotientUnique(n, x / n, x % n, k, i);
  }

  lemma QuotientUnique(n: nat, a: nat, i: nat, b: nat, j: nat)
    requires i < n && j < n && n * a + i == n * b + j
    ensures a == b && i == j
  {
    if a < b {
      MultipleGap(n, a, b);
    } else if b < a {
      MultipleGap(n, b, a);
    }
  }

  lemma {:induction false} MultipleGap(n: nat, a: nat, b: nat)
    requires a < b
    ensures n * a + n <= n * b
    decreases b
  {
    assert n * b == n * (b - 1) + n;
    if a == b - 1 {
    } else {
      MultipleGap(n, a, b - 1);
    }
  }
}
