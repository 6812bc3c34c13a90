/** Python's `sum` over a list of non-negative integers, and the floor mean
    `sum(xs) // len(xs)` that both generations of the statistics code compute. */
module Mean {

  /** `sum(s)`. */
  function Sum(s: seq<nat>): nat {
    if s == [] then 0 else s[0] + Sum(s[1..])
  }

  /** No element exceeds the sum. */
  lemma {:induction false} SumAtLeastEach(s: seq<nat>, i: nat)
    requires i < |s|
    ensures s[i] <= Sum(s)
  {
    if i > 0 {
      SumAtLeastEach(s[1..], i - 1);
    }
  }

  /** The smallest element of a non-empty list. */
  function Min(s: seq<nat>): (m: nat)
    requires |s| > 0
    ensures m in s
    ensures forall x :: x in s ==> m <= x
  {
    if |s| == 1 then s[0]
    else
      var rest := Min(s[1..]);
      assert forall x :: x in s ==> x == s[0] || x in s[1..];
      if s[0] <= rest then s[0] else rest
  }

  /** The largest element of a non-empty list. */
  function Max(s: seq<nat>): (m: nat)
    requires |s| > 0
    ensures m in s
    ensures forall x :: x in s ==> x <= m
  {
    if |s| == 1 then s[0]
    else
      var rest := Max(s[1..]);
      assert forall x :: x in s ==> x == s[0] || x in s[1..];
      if s[0] >= rest then s[0] else rest
  }

  lemma {:induction false} SumAppend(s: seq<nat>, x: nat)
    ensures Sum(s + [x]) == Sum(s) + x
  {
    if s != [] {
      assert (s + [x])[1..] == s[1..] + [x];
      SumAppend(s[1..], x);
    }
  }

  /** The sum of a list lies between its length times its minimum and its
      length times its maximum. */
  lemma {:induction false} SumBetween(s: seq<nat>)
    requires |s| > 0
    ensures |s| * Min(s) <= Sum(s) <= |s| * Max(s)
  {
    if |s| == 1 {
      assert s[1..] == [];
    } else {
      var t := s[1..];
      SumBetween(t);
      assert forall x :: x in t ==> x in s;
      var lo, hi, tlo, thi := Min(s), Max(s), Min(t), Max(t);
      assert lo <= tlo && thi <= hi && lo <= s[0] <= hi;
      var k := |t|;
      MulMonotone(k, lo, tlo);
      MulMonotone(k, thi, hi);
      MulSucc(k, lo);
      MulSucc(k, hi);
    }
  }

  lemma MulMonotone(n: nat, a: nat, b: nat)
    requires a <= b
    ensures n * a <= n * b
  {}

  lemma MulSucc(n: nat, a: nat)
    ensures (n + 1) * a == a + n * a
  {}

  /** The floor mean `Sum(s) / |s|` of a non-empty list is no smaller than its
      smallest and no larger than its largest element. */
  lemma FloorMeanBetween(s: seq<nat>)
    requires |s| > 0
    ensures Min(s) <= Sum(s) / |s| <= Max(s)
  {
    SumBetween(s);
    DivBetween(Sum(s), |s|, Min(s), Max(s));
  }

  lemma MulAddOne(n: nat, a: nat)
    ensures n * (a + 1) == n * a + n
  {}

  lemma DivBetween(total: nat, n: nat, lo: nat, hi: nat)
    requires n > 0 && n * lo <= total <= n * hi
    ensures lo <= total / n <= hi
  {
    var q := total / n;
    var r := total % n;
    assert total == n * q + r && r < n;
    MulAddOne(n, q);
    MulAddOne(n, hi);
    if q < lo {
      MulMonotone(n, q + 1, lo);
    }
    if hi < q {
      MulMonotone(n, hi + 1, q);
    }
  }

  /** `sum(s) // len(s)` of a non-empty list. */
  function FloorMean(s: seq<nat>): (m: nat)
    requires |s| > 0
    ensures Min(s) <= m <= Max(s)
  {
    FloorMeanBetween(s);
    Sum(s) / |s|
  }
}
