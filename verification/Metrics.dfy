/** Golden-set relevance metrics (eval/metrics.py) and the way the evaluation
    runner feeds them (eval/run_eval.py). The logarithmic discount is any
    positive, strictly decreasing weight. */
module Metrics {
  import opened Sorting

  type Discount = nat -> real

  ghost predicate ValidDiscount(d: Discount) {
    && (forall i: nat :: d(i) > 0.0)
    && (forall i: nat, j: nat :: i < j ==> d(j) < d(i))
  }

  function Pow2(n: nat): (p: nat)
    ensures p >= 1
  {
    if n == 0 then 1 else 2 * Pow2(n - 1)
  }

  function Gain(grade: nat): nat {
    Pow2(grade) - 1
  }

  /** n times the weight w, as repeated addition. */
  function Weigh(n: nat, w: real): real {
    if n == 0 then 0.0 else Weigh(n - 1, w) + w
  }

  lemma {:induction false} WeighIsProduct(n: nat, w: real)
    ensures Weigh(n, w) == n as real * w
  {
    if n > 0 {
      WeighIsProduct(n - 1, w);
      assert n as real * w == ((n - 1) as real + 1.0) * w == (n - 1) as real * w + w;
    }
  }

  lemma {:induction false} WeighAdds(m: nat, n: nat, w: real)
    ensures Weigh(m + n, w) == Weigh(m, w) + Weigh(n, w)
  {
    if n > 0 {
      WeighAdds(m, n - 1, w);
    }
  }

  lemma {:induction false} WeighGrows(n: nat, v: real, w: real)
    requires 0.0 <= v <= w
    ensures 0.0 <= Weigh(n, v) <= Weigh(n, w)
    ensures n > 0 && 0.0 < v < w ==> 0.0 < Weigh(n, v) < Weigh(n, w)
  {
    if n > 0 {
      WeighGrows(n - 1, v, w);
    }
  }

  /** Python's `s[:k]`, which counts from the end when k is negative. */
  function Top<T>(s: seq<T>, k: int): seq<T> {
    if k >= 0 then s[..if k < |s| then k else |s|]
    else s[..if |s| + k > 0 then |s| + k else 0]
  }

  function GradeAt(s: seq<nat>, i: nat): nat {
    if i < |s| then s[i] else 0
  }

  /** Discounted gain of the first n ranks, missing ranks counting as grade 0. */
  function Discounted(d: Discount, s: seq<nat>, n: nat): real {
    if n == 0 then 0.0 else Discounted(d, s, n - 1) + Weigh(Gain(GradeAt(s, n - 1)), d(n - 1))
  }

  function DcgSpec(d: Discount, rels: seq<nat>, k: int): real {
    Discounted(d, Top(rels, k), |Top(rels, k)|)
  }

  method Dcg(d: Discount, rels: seq<nat>, k: int) returns (total: real)
    ensures total == DcgSpec(d, rels, k)
  {
    total := 0.0;
    var top := Top(rels, k);
    for i := 0 to |top|
      invariant total == Discounted(d, top, i)
    {
      total := total + Gain(top[i]) as real * d(i);
      WeighIsProduct(Gain(top[i]), d(i));
    }
  }

  function Descending(): (nat, nat) -> bool {
    (x, y) => x >= y
  }

  function Ideal(grades: seq<nat>): seq<nat> {
    Sort(Descending(), grades)
  }

  function Ndcg(d: Discount, ranked: seq<nat>, ideal: seq<nat>, k: int): real {
    var best := DcgSpec(d, Ideal(ideal), k);
    if best == 0.0 then 0.0 else DcgSpec(d, ranked, k) / best
  }

  method NdcgAtK(d: Discount, ranked: seq<nat>, ideal: seq<nat>, k: int) returns (r: real)
    ensures r == Ndcg(d, ranked, ideal, k)
  {
    var best := Dcg(d, Ideal(ideal), k);
    if best == 0.0 {
      return 0.0;
    }
    var got := Dcg(d, ranked, k);
    r := got / best;
  }

  // ---- grades of a result list -------------------------------------------------

  /** `grades.get(pid, 0)`. */
  function GradeOf(grades: map<string, nat>, pid: string): nat {
    if pid in grades then grades[pid] else 0
  }

  function GradesOf(grades: map<string, nat>, pids: seq<string>): seq<nat> {
    seq(|pids|, i requires 0 <= i < |pids| => GradeOf(grades, pids[i]))
  }

  ghost predicate Distinct<T>(s: seq<T>) {
    forall i, j :: 0 <= i < j < |s| ==> s[i] != s[j]
  }

  /** `keys` lists the judged products once each, as iterating a dict does. */
  ghost predicate Enumerates(keys: seq<string>, grades: map<string, nat>) {
    Distinct(keys) && (forall pid :: pid in keys <==> pid in grades)
  }

  /** Every positive grade occurs at most as often in a as in s. */
  ghost predicate PositivePart(a: seq<nat>, s: seq<nat>) {
    forall x: nat :: x > 0 ==> multiset(a)[x] <= multiset(s)[x]
  }

  function Without<T>(s: seq<T>, j: nat): seq<T>
    requires j < |s|
  {
    s[..j] + s[j + 1..]
  }

  lemma WithoutOne(s: seq<nat>, j: nat)
    requires j < |s|
    ensures multiset(s) == multiset(Without(s, j)) + multiset{s[j]}
  {
    assert s == s[..j] + [s[j]] + s[j + 1..];
  }

  lemma WithoutGrades(grades: map<string, nat>, keys: seq<string>, j: nat)
    requires j < |keys| && Distinct(keys)
    ensures GradesOf(grades, Without(keys, j)) == Without(GradesOf(grades, keys), j)
    ensures Distinct(Without(keys, j))
    ensures forall pid :: pid in keys && pid != keys[j] ==> pid in Without(keys, j)
  {
  }

  lemma PartAddsZero(a: seq<nat>, s: seq<nat>, p: nat)
    requires p < |a| && a[p] == 0 && PositivePart(Without(a, p), s)
    ensures PositivePart(a, s)
  {
    WithoutOne(a, p);
  }

  lemma PartAddsOne(a: seq<nat>, s: seq<nat>, p: nat, j: nat)
    requires p < |a| && j < |s| && a[p] == s[j] && PositivePart(Without(a, p), Without(s, j))
    ensures PositivePart(a, s)
  {
    WithoutOne(a, p);
    WithoutOne(s, j);
    forall x: nat | x > 0 ensures multiset(a)[x] <= multiset(s)[x] {
      assert multiset(Without(a, p))[x] <= multiset(Without(s, j))[x];
    }
  }

  /** Distinct results carry each positive grade at most as often as the judged
      products do: strike each result's product off the list of judged ones. */
  lemma {:induction false} DistinctGradesArePart(grades: map<string, nat>, pids: seq<string>, keys: seq<string>)
    requires Distinct(pids) && Distinct(keys)
    requires forall pid :: pid in pids && GradeOf(grades, pid) > 0 ==> pid in keys
    ensures PositivePart(GradesOf(grades, pids), GradesOf(grades, keys))
    decreases |pids|
  {
    if pids != [] {
      var a, s := GradesOf(grades, pids), GradesOf(grades, keys);
      WithoutGrades(grades, pids, 0);
      if a[0] == 0 {
        DistinctGradesArePart(grades, Without(pids, 0), keys);
        PartAddsZero(a, s, 0);
      } else {
        assert pids[0] in pids;
        var j :| 0 <= j < |keys| && keys[j] == pids[0];
        WithoutGrades(grades, keys, j);
        DistinctGradesArePart(grades, Without(pids, 0), Without(keys, j));
        PartAddsOne(a, s, 0, j);
      }
    }
  }

  // ---- the rearrangement argument ------------------------------------------------

  function TotalGain(s: seq<nat>): nat {
    if s == [] then 0 else Gain(s[0]) + TotalGain(s[1..])
  }

  /** Undiscounted gain of the first n ranks. */
  function PrefixGain(s: seq<nat>, n: nat): nat {
    TotalGain(Top(s, n))
  }

  lemma {:induction false} TotalGainSplits(a: seq<nat>, b: seq<nat>)
    ensures TotalGain(a + b) == TotalGain(a) + TotalGain(b)
  {
    if a == [] {
      assert a + b == b;
    } else {
      TotalGainSplits(a[1..], b);
      assert (a + b)[1..] == a[1..] + b;
    }
  }

  lemma PrefixGainStep(s: seq<nat>, n: nat)
    ensures PrefixGain(s, n + 1) == PrefixGain(s, n) + Gain(GradeAt(s, n))
  {
    if n < |s| {
      assert Top(s, n + 1) == Top(s, n) + [s[n]];
      TotalGainSplits(Top(s, n), [s[n]]);
    } else {
      assert Top(s, n + 1) == Top(s, n) == s;
    }
  }

  lemma {:induction false} GainMonotone(x: nat, y: nat)
    requires x <= y
    ensures Gain(x) <= Gain(y)
    ensures x < y ==> Gain(x) < Gain(y)
    decreases y
  {
    if x < y {
      GainMonotone(x, y - 1);
    } else if x > 0 {
      GainMonotone(x - 1, y - 1);
    }
  }

  lemma TotalGainWithout(s: seq<nat>, j: nat)
    requires j < |s|
    ensures TotalGain(s) == TotalGain(Without(s, j)) + Gain(s[j])
  {
    assert s == s[..j] + s[j..];
    TotalGainSplits(s[..j], s[j..]);
    assert s[j..][1..] == s[j + 1..];
    TotalGainSplits(s[..j], s[j + 1..]);
  }

  function IndexOf(a: seq<nat>, x: nat): (p: nat)
    requires x in a
    ensures p < |a| && a[p] == x
  {
    if a[0] == x then 0 else 1 + IndexOf(a[1..], x)
  }

  lemma PrefixGainHead(s: seq<nat>, n: nat)
    requires s != [] && n > 0
    ensures PrefixGain(s, n) == Gain(s[0]) + PrefixGain(s[1..], n - 1)
  {
    assert Top(s, n)[1..] == Top(s[1..], n - 1);
  }

  /** The item of a to match with the largest item of s. */
  function Partner(a: seq<nat>, s: seq<nat>): (p: nat)
    requires a != []
    ensures p < |a|
  {
    if s != [] && s[0] in a then IndexOf(a, s[0]) else 0
  }

  lemma PartnerRemoved(a: seq<nat>, s: seq<nat>)
    requires a != [] && PositivePart(a, s)
    ensures s == [] ==> PositivePart(Without(a, Partner(a, s)), s) && a[Partner(a, s)] == 0
    ensures s != [] ==> PositivePart(Without(a, Partner(a, s)), s[1..])
    ensures s != [] && SortedBy(Descending(), s) ==> a[Partner(a, s)] <= s[0]
  {
    var p := Partner(a, s);
    WithoutOne(a, p);
    assert a[p] in multiset(a);
    if s != [] {
      WithoutOne(s, 0);
      assert Without(s, 0) == s[1..];
      assert a[p] > 0 ==> a[p] in s;
      forall x: nat | x > 0 ensures multiset(Without(a, p))[x] <= multiset(s[1..])[x] {
        assert multiset(Without(a, p))[x] + multiset{a[p]}[x] == multiset(a)[x] <= multiset(s)[x];
        assert multiset(s[1..])[x] + multiset{s[0]}[x] == multiset(s)[x];
        if s[0] !in a && x == s[0] {
          assert x !in multiset(a);
        }
      }
    }
  }

  /** No selection of n items gains more than the n largest: the largest item is
      matched with itself when selected, and dominates any item otherwise. */
  lemma {:induction false} TopIsBest(a: seq<nat>, s: seq<nat>)
    requires SortedBy(Descending(), s) && PositivePart(a, s)
    ensures TotalGain(a) <= PrefixGain(s, |a|)
    decreases |a|
  {
    if a != [] {
      var p := Partner(a, s);
      PartnerRemoved(a, s);
      TotalGainWithout(a, p);
      if s == [] {
        TopIsBest(Without(a, p), s);
      } else {
        TopIsBest(Without(a, p), s[1..]);
        GainMonotone(a[p], s[0]);
        PrefixGainHead(s, |a|);
      }
    }
  }

  /** Taking the first j ranks of a list keeps its positive grades part of s. */
  lemma PrefixDominated(a: seq<nat>, s: seq<nat>, j: nat)
    requires SortedBy(Descending(), s) && PositivePart(a, s)
    ensures PrefixGain(a, j) <= PrefixGain(s, j)
  {
    var t: seq<nat> := Top(a, j);
    forall x: nat | x > 0 ensures multiset(t)[x] <= multiset(s)[x] {
      assert a == t + a[|t|..];
    }
    TopIsBest(t, s);
    if |t| < j {
      PrefixGainMonotone(s, |t|, j);
    }
  }

  lemma {:induction false} PrefixGainMonotone(s: seq<nat>, i: nat, j: nat)
    requires i <= j
    ensures PrefixGain(s, i) <= PrefixGain(s, j)
    decreases j
  {
    if i < j {
      PrefixGainMonotone(s, i, j - 1);
      PrefixGainStep(s, j - 1);
    }
  }

  ghost predicate Dominates(y: seq<nat>, x: seq<nat>, n: nat) {
    forall j: nat :: j <= n ==> PrefixGain(x, j) <= PrefixGain(y, j)
  }

  /** One step of summation by parts: dy and dx are the discounted gains of the
      earlier ranks, s their undiscounted surplus, gy and gx the next gains. */
  lemma PartsStep(w0: real, w1: real, dx: real, dy: real, s: nat, gx: nat, gy: nat)
    requires 0.0 < w1 < w0 && dy >= dx + Weigh(s, w0) && s + gy >= gx
    ensures dy + Weigh(gy, w1) >= dx + Weigh(gx, w1) + Weigh(s + gy - gx, w1)
    ensures Weigh(s + gy - gx, w1) >= 0.0
    ensures dy + Weigh(gy, w1) == dx + Weigh(gx, w1) ==> dx == dy && s == 0 && gx == gy
  {
    WeighGrows(s, w1, w0);
    WeighAdds(s, gy, w1);
    WeighAdds(s + gy - gx, gx, w1);
    WeighGrows(s + gy - gx, w1, w1 + 1.0);
  }

  /** So it is for one more rank, given the surplus of the earlier ones at a larger weight. */
  lemma DominationStep(d: Discount, x: seq<nat>, y: seq<nat>, n: nat, w0: real)
    requires ValidDiscount(d) && d(n) < w0
    requires PrefixGain(x, n) <= PrefixGain(y, n) && PrefixGain(x, n + 1) <= PrefixGain(y, n + 1)
    requires Discounted(d, y, n) >= Discounted(d, x, n) + Weigh(PrefixGain(y, n) - PrefixGain(x, n), w0)
    ensures Discounted(d, y, n + 1)
         >= Discounted(d, x, n + 1) + Weigh(PrefixGain(y, n + 1) - PrefixGain(x, n + 1), d(n))
    ensures Discounted(d, y, n + 1) >= Discounted(d, x, n + 1)
    ensures Discounted(d, y, n + 1) == Discounted(d, x, n + 1) ==>
              && Discounted(d, y, n) == Discounted(d, x, n)
              && PrefixGain(y, n + 1) == PrefixGain(x, n + 1)
  {
    PrefixGainStep(x, n);
    PrefixGainStep(y, n);
    PartsStep(w0, d(n), Discounted(d, x, n), Discounted(d, y, n), PrefixGain(y, n) - PrefixGain(x, n),
              Gain(GradeAt(x, n)), Gain(GradeAt(y, n)));
  }

  /** Dominating every prefix dominates every decreasing weighting, by at least
      the surplus of the whole prefix at the last weight. */
  lemma {:induction false} DominationDiscounted(d: Discount, x: seq<nat>, y: seq<nat>, n: nat)
    requires ValidDiscount(d) && n > 0 && Dominates(y, x, n)
    ensures Discounted(d, y, n) >= Discounted(d, x, n) + Weigh(PrefixGain(y, n) - PrefixGain(x, n), d(n - 1))
    ensures Discounted(d, y, n) >= Discounted(d, x, n)
    ensures Discounted(d, y, n) == Discounted(d, x, n) ==>
              && Discounted(d, y, n - 1) == Discounted(d, x, n - 1)
              && PrefixGain(y, n) == PrefixGain(x, n)
  {
    if n == 1 {
      assert PrefixGain(x, 0) == PrefixGain(y, 0) == 0;
      DominationStep(d, x, y, 0, d(0) + 1.0);
    } else {
      DominationDiscounted(d, x, y, n - 1);
      DominationStep(d, x, y, n - 1, d(n - 2));
    }
  }

  /** A dominated list reaches the same discounted gain only by equal prefixes. */
  lemma {:induction false} EqualDiscountedEqualPrefixes(d: Discount, x: seq<nat>, y: seq<nat>, n: nat, j: nat)
    requires ValidDiscount(d) && Dominates(y, x, n) && j <= n
    requires Discounted(d, y, n) == Discounted(d, x, n)
    ensures PrefixGain(x, j) == PrefixGain(y, j)
  {
    if n > 0 {
      DominationDiscounted(d, x, y, n);
      if j < n {
        EqualDiscountedEqualPrefixes(d, x, y, n - 1, j);
      }
    }
  }

  // ---- the metric -------------------------------------------------------------------

  lemma {:induction false} DiscountedAgrees(d: Discount, s: seq<nat>, t: seq<nat>, n: nat)
    requires forall i: nat :: i < n ==> GradeAt(s, i) == GradeAt(t, i)
    ensures Discounted(d, s, n) == Discounted(d, t, n)
  {
    if n > 0 {
      DiscountedAgrees(d, s, t, n - 1);
    }
  }

  lemma {:induction false} DiscountedPads(d: Discount, s: seq<nat>, n: nat)
    requires n >= |s|
    ensures Discounted(d, s, n) == Discounted(d, s, |s|)
  {
    if n > |s| {
      DiscountedPads(d, s, n - 1);
    }
  }

  lemma DcgIsPadded(d: Discount, s: seq<nat>, k: nat)
    ensures DcgSpec(d, s, k) == Discounted(d, s, k)
  {
    var t: seq<nat> := Top(s, k);
    DiscountedPads(d, t, k);
    DiscountedAgrees(d, t, s, k);
  }

  lemma {:induction false} DiscountedNonNegative(d: Discount, s: seq<nat>, n: nat)
    requires ValidDiscount(d)
    ensures Discounted(d, s, n) >= 0.0
  {
    if n > 0 {
      DiscountedNonNegative(d, s, n - 1);
      WeighGrows(Gain(GradeAt(s, n - 1)), d(n - 1), d(n - 1));
    }
  }

  /** The gain of the first j ranks is that of the first j of the top k. */
  lemma TopKeepsGain(grades: map<string, nat>, pids: seq<string>, k: nat, j: nat)
    requires j <= k
    ensures PrefixGain(GradesOf(grades, pids), j) == PrefixGain(GradesOf(grades, Top(pids, k)), j)
  {
    assert Top(GradesOf(grades, pids), j) == Top(GradesOf(grades, Top(pids, k)), j);
  }

  lemma RankedDominated(grades: map<string, nat>, pids: seq<string>, keys: seq<string>, k: nat)
    requires Distinct(Top(pids, k)) && Enumerates(keys, grades)
    ensures Dominates(Ideal(GradesOf(grades, keys)), GradesOf(grades, pids), k)
  {
    var top, all := GradesOf(grades, Top(pids, k)), GradesOf(grades, keys);
    DistinctGradesArePart(grades, Top(pids, k), keys);
    SortSorts(Descending(), all);
    forall j: nat | j <= k ensures PrefixGain(GradesOf(grades, pids), j) <= PrefixGain(Ideal(all), j) {
      TopKeepsGain(grades, pids, k, j);
      PrefixDominated(top, Ideal(all), j);
    }
  }

  lemma RankedAtMostIdeal(d: Discount, grades: map<string, nat>, pids: seq<string>, keys: seq<string>, k: nat)
    requires ValidDiscount(d) && Distinct(Top(pids, k)) && Enumerates(keys, grades)
    ensures 0.0 <= DcgSpec(d, GradesOf(grades, pids), k) <= DcgSpec(d, Ideal(GradesOf(grades, keys)), k)
  {
    var ranked, ideal := GradesOf(grades, pids), Ideal(GradesOf(grades, keys));
    DcgIsPadded(d, ranked, k);
    DcgIsPadded(d, ideal, k);
    DiscountedNonNegative(d, ranked, k);
    RankedDominated(grades, pids, keys, k);
    if k > 0 {
      DominationDiscounted(d, ranked, ideal, k);
    }
  }

  lemma QuotientInUnitInterval(x: real, y: real)
    requires 0.0 <= x && y > 0.0
    ensures 0.0 <= x / y
    ensures x / y <= 1.0 <==> x <= y
    ensures x / y == 1.0 <==> x == y
  {
  }

  /** NDCG@k lies between 0 and 1 when the first k results are distinct products. */
  lemma NdcgInUnitInterval(d: Discount, grades: map<string, nat>, pids: seq<string>, keys: seq<string>, k: nat)
    requires ValidDiscount(d) && Distinct(Top(pids, k)) && Enumerates(keys, grades)
    ensures 0.0 <= Ndcg(d, GradesOf(grades, pids), GradesOf(grades, keys), k) <= 1.0
  {
    RankedAtMostIdeal(d, grades, pids, keys, k);
    var x := DcgSpec(d, GradesOf(grades, pids), k);
    var y := DcgSpec(d, Ideal(GradesOf(grades, keys)), k);
    if y != 0.0 {
      QuotientInUnitInterval(x, y);
    }
  }

  /** Where a dominated list reaches the same discounted gain, its grades are the same. */
  lemma EqualGrade(d: Discount, x: seq<nat>, y: seq<nat>, k: nat, i: nat)
    requires ValidDiscount(d) && Dominates(y, x, k) && Discounted(d, y, k) == Discounted(d, x, k) && i < k
    ensures GradeAt(x, i) == GradeAt(y, i)
  {
    EqualDiscountedEqualPrefixes(d, x, y, k, i);
    EqualDiscountedEqualPrefixes(d, x, y, k, i + 1);
    PrefixGainStep(x, i);
    PrefixGainStep(y, i);
    GainInjective(GradeAt(x, i), GradeAt(y, i));
  }

  /** With something relevant to find, NDCG@k is 1 exactly when the first k ranks
      carry the ideal grades, rank by rank. */
  lemma NdcgOneIffIdealOrder(d: Discount, grades: map<string, nat>, pids: seq<string>, keys: seq<string>, k: nat)
    requires ValidDiscount(d) && Distinct(Top(pids, k)) && Enumerates(keys, grades)
    requires DcgSpec(d, Ideal(GradesOf(grades, keys)), k) > 0.0
    ensures Ndcg(d, GradesOf(grades, pids), GradesOf(grades, keys), k) == 1.0
       <==> forall i: nat :: i < k ==> GradeAt(GradesOf(grades, pids), i) == GradeAt(Ideal(GradesOf(grades, keys)), i)
  {
    var ranked, ideal := GradesOf(grades, pids), Ideal(GradesOf(grades, keys));
    DcgIsPadded(d, ranked, k);
    DcgIsPadded(d, ideal, k);
    RankedAtMostIdeal(d, grades, pids, keys, k);
    QuotientInUnitInterval(Discounted(d, ranked, k), Discounted(d, ideal, k));
    if Discounted(d, ranked, k) == Discounted(d, ideal, k) {
      RankedDominated(grades, pids, keys, k);
      forall i: nat | i < k ensures GradeAt(ranked, i) == GradeAt(ideal, i) {
        EqualGrade(d, ranked, ideal, k, i);
      }
    } else if forall i: nat :: i < k ==> GradeAt(ranked, i) == GradeAt(ideal, i) {
      DiscountedAgrees(d, ranked, ideal, k);
    }
  }

  lemma GainInjective(x: nat, y: nat)
    requires Gain(x) == Gain(y)
    ensures x == y
  {
    if x < y {
      GainMonotone(x, y);
    } else {
      GainMonotone(y, x);
    }
  }

  // ---- where the bound stops ---------------------------------------------------------

  function Ones(n: nat): (s: seq<nat>)
    ensures |s| == n && forall i :: 0 <= i < n ==> s[i] == 1
  {
    seq(n, i => 1)
  }

  lemma OnesAreIdeal(n: nat)
    ensures Ideal(Ones(n)) == Ones(n)
  {
    SortSorts(Descending(), Ones(n));
    var t := Ideal(Ones(n));
    assert |t| == |multiset(t)| == |multiset(Ones(n))| == n;
    forall i | 0 <= i < |t| ensures t[i] == 1 {
      assert t[i] in multiset(Ones(n));
    }
  }

  lemma {:induction false} DiscountedGrows(d: Discount, s: seq<nat>, i: nat, j: nat)
    requires ValidDiscount(d) && i <= j
    ensures Discounted(d, s, i) <= Discounted(d, s, j)
    decreases j
  {
    if i < j {
      DiscountedGrows(d, s, i, j - 1);
      WeighGrows(Gain(GradeAt(s, j - 1)), d(j - 1), d(j - 1));
    }
  }

  /** Every further rank of grade 1 adds something positive. */
  lemma OneMore(d: Discount, s: seq<nat>, n: nat)
    requires ValidDiscount(d) && GradeAt(s, n) == 1
    ensures Discounted(d, s, n + 1) > Discounted(d, s, n) >= 0.0
  {
    assert Gain(1) == 1 && Weigh(1, d(n)) == Weigh(0, d(n)) + d(n);
    DiscountedNonNegative(d, s, n);
  }

  /** A list that starts with more ones than the ideal has kept scores above 1. */
  lemma MoreOnesExceed(d: Discount, ranked: seq<nat>, n: nat, k: int)
    requires ValidDiscount(d) && 0 < |Top(Ones(n), k)| < |Top(ranked, k)|
    requires forall i :: 0 <= i <= |Top(Ones(n), k)| ==> Top(ranked, k)[i] == 1
    ensures Ndcg(d, ranked, Ones(n), k) > 1.0
  {
    var kept, got := Top(Ones(n), k), Top(ranked, k);
    var m := |kept|;
    OnesAreIdeal(n);
    OneMore(d, kept, m - 1);
    DiscountedAgrees(d, kept, got, m);
    OneMore(d, got, m);
    DiscountedGrows(d, got, m + 1, |got|);
    QuotientInUnitInterval(Discounted(d, got, |got|), Discounted(d, kept, m));
  }

  function AllOnes(keys: seq<string>): map<string, nat> {
    map pid | pid in keys :: 1
  }

  lemma AllOnesGrades(keys: seq<string>)
    requires Distinct(keys)
    ensures Enumerates(keys, AllOnes(keys)) && GradesOf(AllOnes(keys), keys) == Ones(|keys|)
  {
  }

  /** The products of a list, each once. */
  function Once(s: seq<string>): (r: seq<string>)
    ensures Distinct(r) && forall x :: x in r <==> x in s
    ensures |r| <= |s| && (|r| == |s| <==> Distinct(s)) && (s != [] ==> r != [])
  {
    if s == [] then []
    else
      var init, x := s[..|s| - 1], s[|s| - 1];
      assert s == init + [x];
      if x in init then Once(init) else Once(init) + [x]
  }

  /** A product repeated among the first k results breaks the bound: grade every one
      of them 1. */
  lemma RepeatedResultExceedsOne(d: Discount, pids: seq<string>, k: nat)
    returns (grades: map<string, nat>, keys: seq<string>)
    requires ValidDiscount(d) && !Distinct(Top(pids, k))
    ensures Enumerates(keys, grades)
    ensures Ndcg(d, GradesOf(grades, pids), GradesOf(grades, keys), k) > 1.0
  {
    var top := Top(pids, k);
    keys := Once(top);
    grades := AllOnes(keys);
    AllOnesGrades(keys);
    var ranked: seq<nat> := GradesOf(grades, pids);
    forall i | 0 <= i < |top| ensures Top(ranked, k)[i] == 1 {
      assert pids[i] == top[i];
    }
    MoreOnesExceed(d, ranked, |keys|, k);
  }

  /** Product ids longer than `from`. */
  function Fillers(from: nat, n: nat): (s: seq<string>)
    ensures |s| == n && forall i :: 0 <= i < n ==> |s[i]| == from + 1 + i
  {
    seq(n, i requires i >= 0 => seq(from + 1 + i, j => 'p'))
  }

  /** 1 - k judged products, the first two results among them. */
  lemma JudgedWith(pids: seq<string>, k: int) returns (keys: seq<string>)
    requires k < 0 && |pids| > 1
    ensures Distinct(keys) && |keys| == 1 - k && pids[0] in keys && pids[1] in keys
  {
    var two := Once([pids[0], pids[1]]);
    assert pids[0] in [pids[0], pids[1]] && pids[1] in [pids[0], pids[1]];
    forall i | 0 <= i < |two| ensures |two[i]| <= |pids[0]| + |pids[1]| {
      assert two[i] in [pids[0], pids[1]];
    }
    keys := two + Fillers(|pids[0]| + |pids[1]|, 1 - k - |two|);
  }

  /** For a negative k Python's slice drops results from the end, and drops judged
      products from the ideal order: with two results kept the bound breaks, however
      distinct they are. */
  lemma NegativeCutoffExceedsOne(d: Discount, pids: seq<string>, k: int)
    returns (grades: map<string, nat>, keys: seq<string>)
    requires ValidDiscount(d) && k < 0 && |Top(pids, k)| > 1
    ensures Enumerates(keys, grades)
    ensures Ndcg(d, GradesOf(grades, pids), GradesOf(grades, keys), k) > 1.0
  {
    keys := JudgedWith(pids, k);
    grades := AllOnes(keys);
    AllOnesGrades(keys);
    MoreOnesExceed(d, GradesOf(grades, pids), |keys|, k);
  }

  /** With one result kept at most, even a negative cutoff keeps the bound. */
  lemma OneKeptAtMostOne(d: Discount, grades: map<string, nat>, pids: seq<string>, keys: seq<string>, k: int)
    requires ValidDiscount(d) && k < 0 && |Top(pids, k)| <= 1 && Enumerates(keys, grades)
    ensures 0.0 <= Ndcg(d, GradesOf(grades, pids), GradesOf(grades, keys), k) <= 1.0
  {
    var ranked, ideal := GradesOf(grades, pids), Ideal(GradesOf(grades, keys));
    var got, best: seq<nat> := Top(ranked, k), Top(ideal, k);
    DiscountedNonNegative(d, got, |got|);
    if DcgSpec(d, ideal, k) != 0.0 {
      assert |best| > 0;
      RankedDominated(grades, pids, keys, 1);
      DominationDiscounted(d, ranked, ideal, 1);
      DiscountedAgrees(d, ideal, best, 1);
      DiscountedGrows(d, best, 1, |best|);
      DiscountedNonNegative(d, best, |best|);
      DiscountedAgrees(d, ranked, got, |got|);
      DiscountedGrows(d, ranked, |got|, 1);
      QuotientInUnitInterval(DcgSpec(d, ranked, k), DcgSpec(d, ideal, k));
    }
  }

  /** The results a cutoff keeps for which the bound holds under every judgement. */
  ghost predicate Bounded(pids: seq<string>, k: int) {
    if k >= 0 then Distinct(Top(pids, k)) else |Top(pids, k)| <= 1
  }

  /** The exact condition on a result list and a cutoff for NDCG@k to be normalised:
      the first k results are distinct, or a negative k keeps one of them at most. */
  lemma NdcgNormalisedIffDistinctTop(d: Discount, pids: seq<string>, k: int)
    requires ValidDiscount(d)
    ensures (forall grades: map<string, nat>, keys: seq<string> :: Enumerates(keys, grades) ==>
               0.0 <= Ndcg(d, GradesOf(grades, pids), GradesOf(grades, keys), k) <= 1.0)
       <==> Bounded(pids, k)
  {
    if !Bounded(pids, k) {
      if k >= 0 {
        var grades, keys := RepeatedResultExceedsOne(d, pids, k);
      } else {
        var grades, keys := NegativeCutoffExceedsOne(d, pids, k);
      }
    } else {
      forall grades: map<string, nat>, keys: seq<string> | Enumerates(keys, grades)
        ensures 0.0 <= Ndcg(d, GradesOf(grades, pids), GradesOf(grades, keys), k) <= 1.0
      {
        if k >= 0 {
          NdcgInUnitInterval(d, grades, pids, keys, k);
        } else {
          OneKeptAtMostOne(d, grades, pids, keys, k);
        }
      }
    }
  }

  /** The exact condition on the cutoff alone, for results listed once each. */
  lemma NdcgNormalisedIffCutoffNonNegative(d: Discount, k: int)
    requires ValidDiscount(d)
    ensures (forall grades: map<string, nat>, pids: seq<string>, keys: seq<string> ::
               Distinct(pids) && Enumerates(keys, grades) ==>
               0.0 <= Ndcg(d, GradesOf(grades, pids), GradesOf(grades, keys), k) <= 1.0)
       <==> k >= 0
  {
    if k >= 0 {
      forall grades: map<string, nat>, pids: seq<string>, keys: seq<string> |
        Distinct(pids) && Enumerates(keys, grades)
        ensures 0.0 <= Ndcg(d, GradesOf(grades, pids), GradesOf(grades, keys), k) <= 1.0
      {
        NdcgInUnitInterval(d, grades, pids, keys, k);
      }
    } else {
      var pids := Fillers(0, 2 - k);
      var grades, keys := NegativeCutoffExceedsOne(d, pids, k);
      assert Distinct(pids) && Enumerates(keys, grades);
    }
  }
}
