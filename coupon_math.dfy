/**
 * The arithmetic behind system-bet odds in Coupon.php: the binomial
 * coefficient, the recursive k-combination enumerator, products of odds and
 * the average over all k-combinations.
 */
module CouponMath {
  import opened Common

  // ---------------------------------------------------------------------------
  // Binomial coefficients
  // ---------------------------------------------------------------------------

  /** C(n, k) by Pascal's rule; 0 outside 0 <= k <= n. */
  function Choose(n: nat, k: int): (c: nat)
    ensures 0 <= k <= n <==> c >= 1
    decreases n
  {
    if k < 0 || k > n then 0
    else if k == 0 then 1
    else Choose(n - 1, k - 1) + Choose(n - 1, k)
  }

  lemma {:induction false} ChooseEdges(n: nat)
    ensures Choose(n, 0) == 1 && Choose(n, n) == 1
  {
    if n > 0 {
      ChooseEdges(n - 1);
    }
  }

  /** C(n, k) = C(n, n - k). */
  lemma {:induction false} ChooseSymmetric(n: nat, k: int)
    requires 0 <= k <= n
    ensures Choose(n, k) == Choose(n, n - k)
    decreases n
  {
    if k == 0 || k == n {
      ChooseEdges(n);
    } else {
      ChooseSymmetric(n - 1, k - 1);
      ChooseSymmetric(n - 1, k);
      assert Choose(n, n - k) == Choose(n - 1, n - k - 1) + Choose(n - 1, n - k);
    }
  }

  /** The step the source's loop takes: (i + 1) C(n, i + 1) = (n - i) C(n, i). */
  lemma {:induction false} ChooseStep(n: nat, i: nat)
    requires i < n
    ensures (i + 1) * Choose(n, i + 1) == (n - i) * Choose(n, i)
    decreases n
  {
    if i == 0 {
      ChooseOne(n);
    } else if i == n - 1 {
      ChooseEdges(n);
      ChooseOne(n);
      ChooseSymmetric(n, n - 1);
    } else {
      var m := n - 1;
      ChooseStep(m, i);
      ChooseStep(m, i - 1);
      var a, b, c := Choose(m, i), Choose(m, i + 1), Choose(m, i - 1);
      assert Choose(n, i + 1) == a + b;
      assert Choose(n, i) == c + a;
      PascalStepArithmetic(n, i, a, b, c);
    }
  }

  lemma PascalStepArithmetic(n: int, i: int, a: int, b: int, c: int)
    requires (i + 1) * b == (n - 1 - i) * a
    requires i * a == (n - i) * c
    ensures (i + 1) * (a + b) == (n - i) * (c + a)
  {
    calc {
      (i + 1) * (a + b);
      (i + 1) * a + (i + 1) * b;
      (i + 1) * a + (n - 1 - i) * a;
      n * a;
      i * a + (n - i) * a;
      (n - i) * c + (n - i) * a;
      (n - i) * (c + a);
    }
  }

  lemma {:induction false} ChooseOne(n: nat)
    ensures Choose(n, 1) == n
  {
    if n > 0 {
      ChooseOne(n - 1);
      ChooseEdges(n - 1);
    }
  }

  /**
   * binomialCoefficient($n, $k): 0 when k > n, 1 when k = 0 or k = n, and
   * otherwise the loop c := c * (n - i) / (i + 1) over i < min(k, n - k).
   * The division is always exact, so the integer result is C(n, k). A
   * negative k (a negative system_min_wins) skips the loop and yields 1.
   */
  method BinomialCoefficient(n: nat, k: int) returns (c: int)
    ensures k > n ==> c == 0
    ensures 0 <= k <= n ==> c == Choose(n, k)
    ensures k < 0 ==> c == 1
  {
    if k > n {
      return 0;
    }
    if k == 0 || k == n {
      if k == 0 { ChooseEdges(n); } else { ChooseEdges(n); }
      return 1;
    }
    var m := if k < n - k then k else n - k;
    c := 1;
    var i := 0;
    if m > 0 {
      ChooseEdges(n);
      while i < m
        invariant 0 <= i <= m
        invariant c == Choose(n, i)
      {
        ChooseStep(n, i);
        DivExact(c * (n - i), i + 1, Choose(n, i + 1));
        c := c * (n - i) / (i + 1);
        i := i + 1;
      }
      ChooseSymmetric(n, k);
    }
  }

  lemma DivExact(a: int, d: int, q: int)
    requires d > 0 && a == d * q
    ensures a / d == q
  {
    var r, m := a / d, a % d;
    assert a == d * r + m && 0 <= m < d;
    assert d * (q - r) == m;
    MulBelowDivisor(d, q - r);
  }

  lemma MulBelowDivisor(d: int, x: int)
    requires d > 0 && 0 <= d * x < d
    ensures x == 0
  {
  }

  // ---------------------------------------------------------------------------
  // k-combinations
  // ---------------------------------------------------------------------------

  /** Puts x in front of every list of cs, keeping the order of cs. */
  function Prepend<T>(x: T, cs: seq<seq<T>>): (r: seq<seq<T>>)
    ensures |r| == |cs|
    ensures forall i :: 0 <= i < |r| ==> r[i] == [x] + cs[i]
  {
    seq(|cs|, i requires 0 <= i < |cs| => [x] + cs[i])
  }

  /**
   * combinations($array, $length): [[]] for length 0, [] for an empty array,
   * otherwise the combinations that take the head, in front of those that
   * skip it. A negative length recurses down to the empty array and gives [].
   */
  function Combinations<T>(s: seq<T>, k: int): seq<seq<T>>
    decreases |s|
  {
    if k == 0 then [[]]
    else if |s| == 0 then []
    else Prepend(s[0], Combinations(s[1..], k - 1)) + Combinations(s[1..], k)
  }

  /** c is obtained from s by deleting elements (order kept). */
  predicate IsSubsequence<T(==)>(c: seq<T>, s: seq<T>)
    decreases |s|
  {
    if c == [] then true
    else if s == [] then false
    else (c[0] == s[0] && IsSubsequence(c[1..], s[1..])) || IsSubsequence(c, s[1..])
  }

  lemma {:induction false} SubsequenceMembers<T>(c: seq<T>, s: seq<T>, x: T)
    requires IsSubsequence(c, s) && x in c
    ensures x in s
    decreases |s|
  {
    if c[0] == s[0] && IsSubsequence(c[1..], s[1..]) {
      if x != c[0] {
        SubsequenceMembers(c[1..], s[1..], x);
      }
    } else {
      SubsequenceMembers(c, s[1..], x);
    }
  }

  /** There are exactly C(|s|, k) combinations (none for negative k). */
  lemma {:induction false} CombinationsCount<T>(s: seq<T>, k: int)
    ensures k >= 0 ==> |Combinations(s, k)| == Choose(|s|, k)
    ensures k < 0 ==> Combinations(s, k) == []
    decreases |s|
  {
    if k == 0 {
      ChooseEdges(|s|);
    } else if |s| > 0 {
      var t := s[1..];
      CombinationsCount(t, k - 1);
      CombinationsCount(t, k);
      assert Combinations(s, k) == Prepend(s[0], Combinations(t, k - 1)) + Combinations(t, k);
      if k > 0 {
        assert Choose(|s|, k) == Choose(|t|, k - 1) + Choose(|t|, k);
      }
    }
  }

  /** Every combination has k elements and is a subsequence of s. */
  lemma {:induction false} CombinationsShape<T>(s: seq<T>, k: int)
    ensures forall c :: c in Combinations(s, k) ==> |c| == k && IsSubsequence(c, s)
    decreases |s|
  {
    if k != 0 && |s| > 0 {
      var t := s[1..];
      CombinationsShape(t, k - 1);
      CombinationsShape(t, k);
      var withHead := Prepend(s[0], Combinations(t, k - 1));
      forall c | c in Combinations(s, k)
        ensures |c| == k && IsSubsequence(c, s)
      {
        if c in withHead {
          var i :| 0 <= i < |withHead| && withHead[i] == c;
          var d := Combinations(t, k - 1)[i];
          assert c == [s[0]] + d && c[1..] == d;
        } else {
          assert c in Combinations(t, k);
          if c != [] {
            assert IsSubsequence(c, t);
          }
        }
      }
    }
  }

  /** Every k-element subsequence of s is listed: the enumeration misses no combination. */
  lemma {:induction false} CombinationsComplete<T>(s: seq<T>, c: seq<T>)
    requires IsSubsequence(c, s)
    ensures c in Combinations(s, |c|)
    decreases |s|
  {
    if c != [] {
      var t := s[1..];
      var r := Combinations(s, |c|);
      var p := Prepend(s[0], Combinations(t, |c| - 1));
      assert r == p + Combinations(t, |c|);
      if c[0] == s[0] && IsSubsequence(c[1..], t) {
        CombinationsComplete(t, c[1..]);
        var i :| 0 <= i < |Combinations(t, |c| - 1)| && Combinations(t, |c| - 1)[i] == c[1..];
        assert p[i] == [s[0]] + c[1..] == c;
        assert c in p;
      } else {
        CombinationsComplete(t, c);
        assert c in Combinations(t, |c|);
      }
    }
  }

  /**
   * Order of the enumeration: the first C(|s| - 1, k - 1) combinations start
   * with the head of s, the rest are drawn from the tail only.
   */
  lemma CombinationsHeadFirst<T>(s: seq<T>, k: int)
    requires |s| > 0 && k > 0
    ensures var r := Combinations(s, k);
      var m := Choose(|s| - 1, k - 1);
      m <= |r| &&
      (forall i :: 0 <= i < m ==> |r[i]| > 0 && r[i][0] == s[0]) &&
      (forall i :: m <= i < |r| ==> IsSubsequence(r[i], s[1..]))
  {
    var t := s[1..];
    CombinationsCount(t, k - 1);
    CombinationsShape(t, k);
    var r := Combinations(s, k);
    var p := Prepend(s[0], Combinations(t, k - 1));
    assert r == p + Combinations(t, k);
    forall i | Choose(|s| - 1, k - 1) <= i < |r|
      ensures IsSubsequence(r[i], t)
    {
      assert r[i] == Combinations(t, k)[i - |p|];
      assert r[i] in Combinations(t, k);
    }
  }

  predicate NoDuplicates<T(==)>(s: seq<T>)
  {
    forall i, j :: 0 <= i < j < |s| ==> s[i] != s[j]
  }

  /** The head of a duplicate-free list does not occur in its tail, which is duplicate-free too. */
  lemma HeadNotInTail<T>(s: seq<T>)
    requires |s| > 0 && NoDuplicates(s)
    ensures s[0] !in s[1..] && NoDuplicates(s[1..])
  {
    forall j | 0 <= j < |s| - 1 ensures s[1..][j] != s[0] {
      assert s[1..][j] == s[j + 1];
    }
  }

  /**
   * Over a list with no repeated element, no combination is listed twice
   * (as lists; since each is a subsequence, also as sets of picks).
   */
  lemma {:induction false} CombinationsDistinct<T>(s: seq<T>, k: int)
    requires NoDuplicates(s)
    ensures NoDuplicates(Combinations(s, k))
    decreases |s|
  {
    if k != 0 && |s| > 0 {
      var t := s[1..];
      HeadNotInTail(s);
      CombinationsDistinct(t, k - 1);
      CombinationsDistinct(t, k);
      CombinationsShape(t, k);
      var a := Combinations(t, k - 1);
      var p := Prepend(s[0], a);
      var q := Combinations(t, k);
      PrependDistinct(s[0], a);
      forall i, j | 0 <= i < |p| && 0 <= j < |q|
        ensures p[i] != q[j]
      {
        assert s[0] in p[i];
        assert q[j] in q;
        if s[0] in q[j] {
          SubsequenceMembers(q[j], t, s[0]);
        }
      }
      AppendDistinct(p, q);
    }
  }

  lemma PrependDistinct<T>(x: T, a: seq<seq<T>>)
    requires NoDuplicates(a)
    ensures NoDuplicates(Prepend(x, a))
  {
    var p := Prepend(x, a);
    forall i, j | 0 <= i < j < |p|
      ensures p[i] != p[j]
    {
      assert p[i][1..] == a[i] && p[j][1..] == a[j];
    }
  }

  lemma AppendDistinct<T>(p: seq<T>, q: seq<T>)
    requires NoDuplicates(p) && NoDuplicates(q)
    requires forall i, j :: 0 <= i < |p| && 0 <= j < |q| ==> p[i] != q[j]
    ensures NoDuplicates(p + q)
  {
    var r := p + q;
    forall i, j | 0 <= i < j < |r|
      ensures r[i] != r[j]
    {
      if j < |p| {
        assert r[i] == p[i] && r[j] == p[j];
      } else if i >= |p| {
        assert r[i] == q[i - |p|] && r[j] == q[j - |p|];
      } else {
        assert r[i] == p[i] && r[j] == q[j - |p|];
      }
    }
  }

  /** Over a list with no repeated element, no combination repeats a pick. */
  lemma {:induction false} CombinationsNoRepeatedPick<T>(s: seq<T>, k: int)
    requires NoDuplicates(s)
    ensures forall c :: c in Combinations(s, k) ==> NoDuplicates(c)
    decreases |s|
  {
    if k != 0 && |s| > 0 {
      var t := s[1..];
      HeadNotInTail(s);
      CombinationsNoRepeatedPick(t, k - 1);
      CombinationsNoRepeatedPick(t, k);
      CombinationsShape(t, k - 1);
      var a := Combinations(t, k - 1);
      var p := Prepend(s[0], a);
      forall c | c in p
        ensures NoDuplicates(c)
      {
        var i :| 0 <= i < |p| && p[i] == c;
        assert a[i] in a;
        ConsDistinct(s[0], a[i], t);
      }
    }
  }

  lemma ConsDistinct<T>(x: T, c: seq<T>, t: seq<T>)
    requires NoDuplicates(c) && IsSubsequence(c, t) && x !in t
    ensures NoDuplicates([x] + c)
  {
    if x in c {
      SubsequenceMembers(c, t, x);
    }
    var d := [x] + c;
    forall i, j | 0 <= i < j < |d|
      ensures d[i] != d[j]
    {
      assert d[j] == c[j - 1];
      if i > 0 {
        assert d[i] == c[i - 1];
      } else {
        assert d[j] in c;
      }
    }
  }

  /** Choosing every element gives exactly one combination: the list itself. */
  lemma {:induction false} CombinationsAll<T>(s: seq<T>)
    ensures Combinations(s, |s|) == [s]
    decreases |s|
  {
    if |s| > 0 {
      var t := s[1..];
      CombinationsAll(t);
      CombinationsCount(t, |s|);
      assert Combinations(t, |s|) == [];
      assert Prepend(s[0], [t]) == [[s[0]] + t];
      assert [s[0]] + t == s;
    }
  }

  /** Choosing one element gives the singletons, in order. */
  lemma {:induction false} CombinationsSingletons<T>(s: seq<T>)
    ensures Combinations(s, 1) == seq(|s|, i requires 0 <= i < |s| => [s[i]])
    decreases |s|
  {
    if |s| > 0 {
      var t := s[1..];
      CombinationsSingletons(t);
      assert Combinations(t, 0) == [[]];
      assert [s[0]] + [] == [s[0]];
      assert Prepend(s[0], Combinations(t, 0)) == [[s[0]]];
    }
  }

  // ---------------------------------------------------------------------------
  // Products and sums of odds
  // ---------------------------------------------------------------------------

  /** The running product 1.00 * o1 * o2 * ... accumulated left to right. */
  function Product(odds: seq<real>): real
  {
    if odds == [] then 1.0 else Product(odds[..|odds| - 1]) * odds[|odds| - 1]
  }

  /** The running sum of combination products accumulated left to right. */
  function SumOfProducts(combos: seq<seq<real>>): real
  {
    if combos == [] then 0.0
    else SumOfProducts(combos[..|combos| - 1]) + Product(combos[|combos| - 1])
  }

  function Sum(xs: seq<real>): real
  {
    if xs == [] then 0.0 else Sum(xs[..|xs| - 1]) + xs[|xs| - 1]
  }

  /** Extending the odds by one pick multiplies the product by its odds. */
  lemma ProductSnoc(odds: seq<real>, x: real)
    ensures Product(odds + [x]) == Product(odds) * x
  {
    assert (odds + [x])[..|odds|] == odds;
  }

  lemma {:induction false} SumOfProductsAppend(a: seq<seq<real>>, b: seq<seq<real>>)
    ensures SumOfProducts(a + b) == SumOfProducts(a) + SumOfProducts(b)
    decreases |b|
  {
    if b == [] {
      assert a + b == a;
    } else {
      var b' := b[..|b| - 1];
      SumOfProductsAppend(a, b');
      assert (a + b)[..|a + b| - 1] == a + b';
      assert (a + b)[|a + b| - 1] == b[|b| - 1];
    }
  }

  lemma {:induction false} ProductAtLeastOne(odds: seq<real>)
    requires AllAtLeastOne(odds)
    ensures Product(odds) >= 1.0
    decreases |odds|
  {
    if odds != [] {
      ProductAtLeastOne(odds[..|odds| - 1]);
      MulAtLeastOne(Product(odds[..|odds| - 1]), odds[|odds| - 1]);
    }
  }

  lemma MulAtLeastOne(a: real, b: real)
    requires a >= 1.0 && b >= 1.0
    ensures a * b >= 1.0
  {
    assert a * b >= a * 1.0;
  }

  // ---------------------------------------------------------------------------
  // System odds
  // ---------------------------------------------------------------------------

  /**
   * The value calculateSystemOdds returns for a non-empty pick list when it
   * does not divide by zero: the sum over every k-combination of its odds
   * product, divided by binomialCoefficient(n, k) (which is 1 for k < 0).
   */
  function SystemAverage(odds: seq<real>, k: int): real
    requires k <= |odds|
  {
    SumOfProducts(Combinations(odds, k)) / (if k < 0 then 1 else Choose(|odds|, k)) as real
  }

  /**
   * calculateSystemOdds: 1.00 for no picks; otherwise the average above.
   * None stands for the division by zero when k > n (PHP's
   * DivisionByZeroError, which nothing in the application catches).
   */
  method SystemOdds(odds: seq<real>, k: int) returns (r: Option<real>)
    ensures odds == [] ==> r == Some(1.0)
    ensures odds != [] && k > |odds| ==> r == None
    ensures odds != [] && k <= |odds| ==> r == Some(SystemAverage(odds, k))
  {
    if |odds| == 0 {
      return Some(1.0);
    }
    var totalCombinations := BinomialCoefficient(|odds|, k);
    var total := 0.0;
    var combos := Combinations(odds, k);
    var i := 0;
    while i < |combos|
      invariant 0 <= i <= |combos|
      invariant total == SumOfProducts(combos[..i])
    {
      var combo := combos[i];
      var comboOdds := 1.0;
      var j := 0;
      while j < |combo|
        invariant 0 <= j <= |combo|
        invariant comboOdds == Product(combo[..j])
      {
        assert combo[..j + 1][..j] == combo[..j];
        comboOdds := comboOdds * combo[j];
        j := j + 1;
      }
      assert combo[..j] == combo;
      assert combos[..i + 1][..i] == combos[..i];
      total := total + comboOdds;
      i := i + 1;
    }
    assert combos[..i] == combos;
    if totalCombinations == 0 {
      return None;
    }
    return Some(total / totalCombinations as real);
  }

  /** With k = 0 (or a null system_min_wins) the system odds are exactly 1. */
  lemma SystemAverageNoneRequired(odds: seq<real>)
    ensures SystemAverage(odds, 0) == 1.0
  {
    ChooseEdges(|odds|);
    var one: seq<seq<real>> := [[]];
    assert Combinations(odds, 0) == one;
    assert one[..0] == [];
    assert SumOfProducts(one) == SumOfProducts([]) + Product([]);
  }

  /** With k = n the only combination is the whole coupon: the plain product. */
  lemma SystemAverageAllRequired(odds: seq<real>)
    ensures SystemAverage(odds, |odds|) == Product(odds)
  {
    CombinationsAll(odds);
    ChooseEdges(|odds|);
    SumOfProductsSingle(odds);
    var n := |odds|;
    var total := SumOfProducts(Combinations(odds, n));
    var d := Choose(n, n) as real;
    assert SystemAverage(odds, n) == total / d;
    DivByOne(total, d);
  }

  lemma DivByOne(x: real, d: real)
    requires d == 1.0
    ensures x / d == x
  {
  }

  lemma SumOfProductsSingle(odds: seq<real>)
    ensures SumOfProducts([odds]) == Product(odds)
  {
    var one := [odds];
    assert one[..0] == [];
  }

  /** With k = 1 the system odds are the arithmetic mean of the pick odds. */
  lemma SystemAverageOneRequired(odds: seq<real>)
    requires |odds| > 0
    ensures SystemAverage(odds, 1) == Sum(odds) / |odds| as real
  {
    CombinationsSingletons(odds);
    ChooseOne(|odds|);
    SumOfSingletons(odds);
  }

  lemma {:induction false} SumOfSingletons(odds: seq<real>)
    ensures SumOfProducts(seq(|odds|, i requires 0 <= i < |odds| => [odds[i]])) == Sum(odds)
    decreases |odds|
  {
    if odds != [] {
      var n := |odds|;
      var init := odds[..n - 1];
      SumOfSingletons(init);
      var full := seq(n, i requires 0 <= i < n => [odds[i]]);
      assert full[..n - 1] == seq(n - 1, i requires 0 <= i < n - 1 => [init[i]]);
      assert Product([odds[n - 1]]) == Product([]) * odds[n - 1];
    }
  }

  /** A negative k enumerates no combination, so the system odds are 0. */
  lemma SystemAverageNegative(odds: seq<real>, k: int)
    requires k < 0
    ensures SystemAverage(odds, k) == 0.0
  {
    CombinationsCount(odds, k);
  }

  /**
   * When every pick pays at least even money (odds >= 1) so do the system
   * odds: each combination's product is at least 1 and there are C(n, k) of
   * them.
   */
  lemma SystemAverageAtLeastOne(odds: seq<real>, k: int)
    requires 0 <= k <= |odds|
    requires forall i :: 0 <= i < |odds| ==> odds[i] >= 1.0
    ensures SystemAverage(odds, k) >= 1.0
  {
    var combos := Combinations(odds, k);
    CombinationsCount(odds, k);
    CombinationsAtLeastOne(odds, k);
    SumAtLeastCount(combos);
    QuotientAtLeastOne(SumOfProducts(combos), Choose(|odds|, k) as real);
  }

  lemma QuotientAtLeastOne(x: real, y: real)
    requires y > 0.0 && x >= y
    ensures x / y >= 1.0
  {
  }

  lemma CombinationsAtLeastOne(odds: seq<real>, k: int)
    requires forall i :: 0 <= i < |odds| ==> odds[i] >= 1.0
    ensures forall c :: c in Combinations(odds, k) ==> AllAtLeastOne(c)
  {
    CombinationsShape(odds, k);
    forall c | c in Combinations(odds, k)
      ensures AllAtLeastOne(c)
    {
      forall i | 0 <= i < |c| ensures c[i] >= 1.0 {
        SubsequenceMembers(c, odds, c[i]);
      }
    }
  }

  predicate AllAtLeastOne(odds: seq<real>)
  {
    forall i :: 0 <= i < |odds| ==> odds[i] >= 1.0
  }

  lemma {:induction false} SumAtLeastCount(combos: seq<seq<real>>)
    requires forall c :: c in combos ==> AllAtLeastOne(c)
    ensures SumOfProducts(combos) >= |combos| as real
    decreases |combos|
  {
    if combos != [] {
      var init := combos[..|combos| - 1];
      forall c | c in init ensures AllAtLeastOne(c) {
        assert c in combos;
      }
      SumAtLeastCount(init);
      assert combos[|combos| - 1] in combos;
      ProductAtLeastOne(combos[|combos| - 1]);
    }
  }
}
