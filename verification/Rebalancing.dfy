/**
 Spreading a requested worker count over the worker machine sets, in place: take
 replicas from a largest set, or give them to a smallest one, one at a time.

 A machine set holds a pointer to its replica count.  `nils[i]` says that the
 pointer of set `i` is nil; the counts live in the array.
 */
module Rebalancing {

  datatype Outcome = NoMachineSets | Panics | Scaled

  // ---- sums ----

  function Sum(s: seq<int>): int {
    if s == [] then 0 else Sum(s[..|s| - 1]) + s[|s| - 1]
  }

  lemma {:induction false} SumUpdate(s: seq<int>, j: nat, v: int)
    requires j < |s|
    ensures Sum(s[j := v]) == Sum(s) - s[j] + v
  {
    var n := |s| - 1;
    if j == n {
      assert s[j := v][..n] == s[..n];
    } else {
      assert s[j := v][..n] == s[..n][j := v];
      SumUpdate(s[..n], j, v);
    }
  }

  lemma {:induction false} SumMonotone(s: seq<int>, t: seq<int>)
    requires |s| == |t| && forall i :: 0 <= i < |s| ==> s[i] <= t[i]
    ensures Sum(s) <= Sum(t)
    ensures (exists k :: 0 <= k < |s| && s[k] < t[k]) ==> Sum(s) < Sum(t)
  {
    if s != [] {
      SumMonotone(s[..|s| - 1], t[..|t| - 1]);
    }
  }

  // ---- what a good distribution is ----

  /** `s` is taken from `r`: nothing grows, and what shrinks stays within one of every other set. */
  ghost predicate Lowered(r: seq<int>, s: seq<int>) {
    && |s| == |r|
    && (forall i :: 0 <= i < |r| ==> s[i] <= r[i])
    && (forall i, k :: 0 <= i < |r| && 0 <= k < |r| && s[i] < r[i] ==> s[k] <= s[i] + 1)
  }

  ghost predicate Raised(r: seq<int>, s: seq<int>) {
    && |s| == |r|
    && (forall i :: 0 <= i < |r| ==> r[i] <= s[i])
    && (forall i, k :: 0 <= i < |r| && 0 <= k < |r| && r[i] < s[i] ==> s[i] <= s[k] + 1)
  }

  /** No other way to reach the same total without growing a set has a smaller largest set. */
  lemma LoweredIsOptimal(r: seq<int>, s: seq<int>, other: seq<int>, k: nat)
    requires Lowered(r, s) && k < |s|
    requires |other| == |r| && Sum(other) == Sum(s) && forall i :: 0 <= i < |r| ==> other[i] <= r[i]
    ensures exists i :: 0 <= i < |other| && s[k] <= other[i]
  {
    if forall i :: 0 <= i < |other| ==> other[i] < s[k] {
      assert other[k] < s[k];
      SumMonotone(other, s);
      assert false;
    }
  }

  /** Dually, no other way to reach the total without shrinking a set has a larger smallest set. */
  lemma RaisedIsOptimal(r: seq<int>, s: seq<int>, other: seq<int>, k: nat)
    requires Raised(r, s) && k < |s|
    requires |other| == |r| && Sum(other) == Sum(s) && forall i :: 0 <= i < |r| ==> r[i] <= other[i]
    ensures exists i :: 0 <= i < |other| && other[i] <= s[k]
  {
    if forall i :: 0 <= i < |other| ==> s[k] < other[i] {
      assert s[k] < other[k];
      SumMonotone(s, other);
      assert false;
    }
  }

  /** Taking replicas down to a non-negative total leaves no set negative. */
  lemma LoweredStaysNonNegative(r: seq<int>, s: seq<int>)
    requires Lowered(r, s) && 0 <= Sum(s) && forall i :: 0 <= i < |r| ==> 0 <= r[i]
    ensures forall i :: 0 <= i < |s| ==> 0 <= s[i]
  {
    if i :| 0 <= i < |s| && s[i] < 0 {
      var zeros := seq(|s|, _ => 0);
      SumZeros(|s|);
      SumMonotone(s, zeros);
      assert false;
    }
  }

  lemma {:induction false} SumZeros(n: nat)
    ensures Sum(seq(n, _ => 0)) == 0
  {
    if n > 0 {
      assert seq(n, _ => 0)[..n - 1] == seq(n - 1, _ => 0);
      SumZeros(n - 1);
    }
  }

  // ---- the loops ----

  ghost predicate StrictWeakOrder(better: (int, int) -> bool) {
    && (forall x, y :: better(x, y) ==> !better(y, x))
    && (forall x, y, z :: !better(x, y) && !better(y, z) ==> !better(x, z))
  }

  lemma NotBetter(better: (int, int) -> bool, x: int, y: int, z: int)
    requires StrictWeakOrder(better) && better(z, y) && (x == z || !better(x, y))
    ensures !better(x, z)
  {}

  /** find: the index of a best element, for a comparison that is a strict weak order. */
  method Find(xs: array<int>, better: (int, int) -> bool) returns (j: nat)
    requires 0 < xs.Length && StrictWeakOrder(better)
    ensures j < xs.Length
    ensures forall i :: 0 <= i < xs.Length ==> !better(xs[i], xs[j])
  {
    j := 0;
    for i := 0 to xs.Length
      invariant 0 <= j < xs.Length
      invariant forall k :: 0 <= k < i ==> !better(xs[k], xs[j])
      invariant i == 0 ==> j == 0
    {
      if better(xs[i], xs[j]) {
        forall k | 0 <= k <= i ensures !better(xs[k], xs[i]) {
          NotBetter(better, xs[k], xs[j], xs[i]);
        }
        j := i;
      }
    }
  }

  method Lower(xs: array<int>, have: int, want: int)
    requires 0 < xs.Length && have == Sum(xs[..]) && want <= have
    modifies xs
    ensures Lowered(old(xs[..]), xs[..]) && Sum(xs[..]) == want
  {
    var left := have;
    while left > want
      invariant want <= left && left == Sum(xs[..])
      invariant Lowered(old(xs[..]), xs[..])
    {
      var j := Find(xs, (x, y) => x > y);
      ghost var s := xs[..];
      xs[j] := xs[j] - 1;
      assert xs[..] == s[j := s[j] - 1];
      SumUpdate(s, j, s[j] - 1);
      left := left - 1;
    }
  }

  method Raise(xs: array<int>, have: int, want: int)
    requires 0 < xs.Length && have == Sum(xs[..]) && have <= want
    modifies xs
    ensures Raised(old(xs[..]), xs[..]) && Sum(xs[..]) == want
  {
    var got := have;
    while got < want
      invariant got <= want && got == Sum(xs[..])
      invariant Raised(old(xs[..]), xs[..])
    {
      var j := Find(xs, (x, y) => x < y);
      ghost var s := xs[..];
      xs[j] := xs[j] + 1;
      assert xs[..] == s[j := s[j] + 1];
      SumUpdate(s, j, s[j] + 1);
      got := got + 1;
    }
  }

  /**
   Update: the default for a nil pointer is stored in a copy of the machine set, so
   the call panics exactly when some pointer is nil; otherwise the counts end with
   the requested total, all moved in one direction.
   */
  method Update(nils: seq<bool>, xs: array<int>, want: int) returns (outcome: Outcome)
    requires |nils| == xs.Length
    modifies xs
    ensures outcome.NoMachineSets? <==> xs.Length == 0
    ensures outcome.Panics? <==> true in nils
    ensures !outcome.Scaled? ==> xs[..] == old(xs[..])
    ensures outcome.Scaled? ==> Sum(xs[..]) == want
    ensures outcome.Scaled? && want <= old(Sum(xs[..])) ==> Lowered(old(xs[..]), xs[..])
    ensures outcome.Scaled? && old(Sum(xs[..])) <= want ==> Raised(old(xs[..]), xs[..])
    ensures 0 <= want && (forall i :: 0 <= i < xs.Length ==> 0 <= old(xs[i])) ==> forall i :: 0 <= i < xs.Length ==> 0 <= xs[i]
  {
    if xs.Length == 0 {
      return NoMachineSets;
    }
    var have, anyNil := 0, false;
    for i := 0 to xs.Length
      invariant anyNil <==> true in nils[..i]
      invariant !anyNil ==> have == Sum(xs[..i])
    {
      have := have + (if nils[i] then 1 else xs[i]);
      anyNil := anyNil || nils[i];
      assert xs[..i + 1][..i] == xs[..i];
    }
    assert nils[..xs.Length] == nils && xs[..xs.Length] == xs[..];
    // every later step dereferences the pointer of every machine set
    if anyNil {
      return Panics;
    }
    if want < have {
      ghost var r := xs[..];
      Lower(xs, have, want);
      if 0 <= want && forall i :: 0 <= i < |r| ==> 0 <= r[i] {
        LoweredStaysNonNegative(r, xs[..]);
        assert forall i :: 0 <= i < xs.Length ==> xs[i] == xs[..][i];
      }
    } else if have < want {
      Raise(xs, have, want);
    }
    return Scaled;
  }
}
