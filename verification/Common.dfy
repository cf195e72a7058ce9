/** Identifiers, bytes and the option type shared by every module.
    Identifiers are compared for equality only, so they are natural numbers here. */
module Common {
  datatype Option<+T> = None | Some(value: T)

  type Byte = x: int | 0 <= x < 256
  type Bytes = seq<Byte>
  type Digest = nat

  type PeerId = nat
  type FileId = nat
  type WindowKey = nat
  type RequestId = nat

  /** One piece of one file. */
  datatype Piece = Piece(file: FileId, index: nat)

  function Min(a: int, b: int): int {
    if a <= b then a else b
  }

  function Max(a: int, b: int): int {
    if a >= b then a else b
  }

  /** Concatenation of a list of byte strings, in order. */
  function Concat<T>(parts: seq<seq<T>>): seq<T> {
    if parts == [] then [] else parts[0] + Concat(parts[1..])
  }

  lemma {:induction false} ConcatAppend<T>(a: seq<seq<T>>, b: seq<seq<T>>)
    ensures Concat(a + b) == Concat(a) + Concat(b)
  {
    if a == [] {
      assert a + b == b;
    } else {
      assert (a + b)[1..] == a[1..] + b;
      ConcatAppend(a[1..], b);
    }
  }

  lemma ConcatSnoc<T>(a: seq<seq<T>>, x: seq<T>)
    ensures Concat(a + [x]) == Concat(a) + x
  {
    ConcatAppend(a, [x]);
    assert Concat([x]) == x + Concat([]);
  }

  /** The numbers below `n`. */
  function Upto(n: nat): (r: set<nat>)
    ensures forall k: nat :: k in r <==> k < n
    ensures |r| == n
  {
    if n == 0 then {} else Upto(n - 1) + {n - 1}
  }

  /** The elements of a list. */
  function Elements<T(!new)>(s: seq<T>): (r: set<T>)
    ensures forall x :: x in r <==> x in s
  {
    if s == [] then {} else Elements(s[..|s| - 1]) + {s[|s| - 1]}
  }

  ghost predicate Distinct<T>(s: seq<T>) {
    forall j, k :: 0 <= j < k < |s| ==> s[j] != s[k]
  }

  lemma {:induction false} DistinctCount<T(!new)>(s: seq<T>)
    requires Distinct(s)
    ensures |Elements(s)| == |s|
  {
    if s != [] {
      var n := |s| - 1;
      DistinctCount(s[..n]);
      assert s[n] !in s[..n];
    }
  }

  lemma SubsetCount<T>(a: set<T>, b: set<T>)
    requires a <= b
    ensures |a| <= |b|
  {
    assert b == a + (b - a);
  }

  /** `n` distinct numbers below `n` leave none out, and no more than `n` fit. */
  lemma Pigeonhole(used: seq<nat>, n: nat)
    requires Distinct(used)
    requires forall k :: 0 <= k < |used| ==> used[k] < n
    ensures |used| <= n
    ensures |used| == n ==> forall x: nat :: x < n ==> x in used
  {
    DistinctCount(used);
    SubsetCount(Elements(used), Upto(n));
    if |used| == n {
      forall x: nat | x < n
        ensures x in used
      {
        if x !in used {
          SubsetCount(Elements(used), Upto(n) - {x});
        }
      }
    }
  }

  /** Quotients are determined by their defining inequality. */
  lemma DivUnique(n: nat, d: nat, q: nat)
    requires d > 0 && q * d <= n < q * d + d
    ensures n / d == q
  {
    var p := n / d;
    assert p * d <= n < p * d + d;
    if p < q {
      assert (p + 1) * d <= q * d by { MulMono(p + 1, q, d); }
    } else if q < p {
      assert (q + 1) * d <= p * d by { MulMono(q + 1, p, d); }
    }
  }

  lemma MulMono(a: int, b: int, d: nat)
    requires a <= b
    ensures a * d <= b * d
  {
  }
}
