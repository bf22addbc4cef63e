/** The evaluation runner (eval/run_eval.py): means of the golden-set metrics and
    the latency percentile. */
module Evaluation {
  import opened Metrics
  import opened Rounding
  import opened Sorting

  // ---- the latency percentile -------------------------------------------------------------------

  function Ascending(): (real, real) -> bool {
    (x, y) => x <= y
  }

  /** The rank `round(0.95 * n)` picks, counted from 1. */
  function Rank(n: nat): int {
    RoundHalfEven(19 * n, 20)
  }

  /** The rank's place in the sorted list, kept inside it. */
  function RankIndex(n: nat): (i: nat)
    requires n > 0
    ensures i < n
  {
    var i := Rank(n) - 1;
    if i < 0 then 0 else if i > n - 1 then n - 1 else i
  }

  /** `_p95`. */
  function P95(values: seq<real>): real {
    SortKeepsLength(values);
    if values == [] then 0.0 else Sort(Ascending(), values)[RankIndex(|values|)]
  }

  lemma SortKeepsLength(values: seq<real>)
    ensures |Sort(Ascending(), values)| == |values|
  {
    SortSorts(Ascending(), values);
    assert |multiset(Sort(Ascending(), values))| == |multiset(values)|;
  }

  lemma RankInside(n: nat)
    requires n > 0
    ensures 1 <= Rank(n) <= n && RankIndex(n) == Rank(n) - 1
  {
  }

  function CountAtMost(values: seq<real>, x: real): nat {
    if values == [] then 0 else (if values[0] <= x then 1 else 0) + CountAtMost(values[1..], x)
  }

  lemma {:induction false} InsertCounts(v: real, values: seq<real>, x: real)
    ensures CountAtMost(Insert(Ascending(), v, values), x) == (if v <= x then 1 else 0) + CountAtMost(values, x)
  {
    if values != [] && !(v <= values[0]) {
      InsertCounts(v, values[1..], x);
      var r := Insert(Ascending(), v, values[1..]);
      assert ([values[0]] + r)[1..] == r;
    } else {
      assert ([v] + values)[1..] == values;
    }
  }

  lemma {:induction false} SortCounts(values: seq<real>, x: real)
    ensures CountAtMost(Sort(Ascending(), values), x) == CountAtMost(values, x)
  {
    if values != [] {
      SortCounts(values[1..], x);
      InsertCounts(values[0], Sort(Ascending(), values[1..]), x);
    }
  }

  /** In a sorted list at least i + 1 values are at most the one at i, and exactly
      so many when the list strictly increases. */
  lemma {:induction false} SortedCount(s: seq<real>, i: nat)
    requires SortedBy(Ascending(), s) && i < |s|
    ensures CountAtMost(s, s[i]) >= i + 1
    ensures (forall j, k :: 0 <= j < k < |s| ==> s[j] < s[k]) ==> CountAtMost(s, s[i]) == i + 1
  {
    var rest := s[1..];
    if i > 0 {
      SortedCount(rest, i - 1);
      assert s[i] == rest[i - 1];
    } else if forall j, k :: 0 <= j < k < |s| ==> s[j] < s[k] {
      NoneAtMost(rest, s[0]);
    }
  }

  lemma {:induction false} NoneAtMost(s: seq<real>, x: real)
    requires forall i :: 0 <= i < |s| ==> x < s[i]
    ensures CountAtMost(s, x) == 0
  {
    if s != [] {
      NoneAtMost(s[1..], x);
    }
  }

  lemma AscendingOrders()
    ensures TotalPreorder(Ascending())
  {
  }

  /** At least the rank's number of samples lie at or below the reported value. */
  lemma P95CoversRank(values: seq<real>)
    requires values != []
    ensures CountAtMost(values, P95(values)) >= Rank(|values|)
  {
    AscendingOrders();
    SortSorts(Ascending(), values);
    SortKeepsLength(values);
    RankInside(|values|);
    SortedCount(Sort(Ascending(), values), RankIndex(|values|));
    SortCounts(values, P95(values));
  }

  function Ramp(from: real, n: nat): (s: seq<real>)
    ensures |s| == n
    ensures forall i :: 0 <= i < n ==> s[i] == from + i as real
    decreases n
  {
    if n == 0 then [] else [from] + Ramp(from + 1.0, n - 1)
  }

  lemma {:induction false} SortOfSorted(s: seq<real>)
    requires SortedBy(Ascending(), s)
    ensures Sort(Ascending(), s) == s
  {
    if s != [] {
      SortOfSorted(s[1..]);
      assert |s| > 1 ==> s[1..][0] == s[1];
      assert s == [s[0]] + s[1..];
    }
  }

  /** Rounding 0.95 n does not round down exactly for these n: 0.95 n is n less n / 20,
      and a half goes up from an odd number. */
  lemma RankCoversIff(n: nat)
    ensures 20 * Rank(n) >= 19 * n <==> n % 20 < 10 || n % 40 == 10
  {
    var a, b := n / 40, n % 40;
    var q, r := QuotientOf(b);
    RankOf(n, 38 * a + q, r);
    SmallRank(b, q, r);
    EvenShift(19 * a, q);
    RestOfTwenty(a, b);
  }

  lemma QuotientOf(b: nat) returns (q: nat, r: nat)
    ensures 19 * b == 20 * q + r && r < 20
  {
    q, r := 19 * b / 20, 19 * b % 20;
  }

  lemma EvenShift(k: int, q: int)
    ensures (2 * k + q) % 2 == q % 2
  {
  }

  lemma RestOfTwenty(a: nat, b: nat)
    ensures (40 * a + b) % 20 == b % 20
  {
  }

  lemma UniqueQuotient(x: int, q: int, r: int)
    requires x == 20 * q + r && 0 <= r < 20
    ensures x / 20 == q && x % 20 == r
  {
  }

  lemma RankOf(n: nat, q: nat, r: nat)
    requires 19 * n == 20 * q + r && r < 20
    ensures 20 * Rank(n) >= 19 * n <==> r == 0 || r > 10 || (r == 10 && q % 2 == 1)
  {
    UniqueQuotient(19 * n, q, r);
  }

  lemma SmallRank(b: nat, q: nat, r: nat)
    requires b < 40 && 19 * b == 20 * q + r && r < 20
    ensures r == 0 || r > 10 || (r == 10 && q % 2 == 1) <==> b % 20 < 10 || b == 10
  {
  }

  /** For n samples the reported value covers 95% of them, whatever they are, exactly
      when n % 20 is below 10 or n % 40 is 10: with 11 samples, say, one in eleven may
      lie above it. */
  lemma P95CoversIff(n: nat)
    requires n > 0
    ensures (forall values: seq<real> :: |values| == n ==> 20 * CountAtMost(values, P95(values)) >= 19 * n)
       <==> n % 20 < 10 || n % 40 == 10
  {
    RankCoversIff(n);
    if 20 * Rank(n) >= 19 * n {
      forall values: seq<real> | |values| == n ensures 20 * CountAtMost(values, P95(values)) >= 19 * n {
        P95CoversRank(values);
      }
    } else {
      var s := Ramp(0.0, n);
      SortOfSorted(s);
      RankInside(n);
      SortedCount(s, RankIndex(n));
      assert CountAtMost(s, P95(s)) == Rank(n);
    }
  }

  // ---- means --------------------------------------------------------------------------------------

  /** A golden query: its judgements and the order its dict iterates in. */
  datatype Golden = Golden(query: string, grades: map<string, nat>, keys: seq<string>)

  function Relevant(grades: seq<nat>): nat {
    if grades == [] then 0 else Relevant(grades[..|grades| - 1]) + if grades[|grades| - 1] >= 1 then 1 else 0
  }

  /** `precision_at_k` with the default threshold. */
  function Precision(ranked: seq<nat>, k: int): real {
    if k <= 0 || Top(ranked, k) == [] then 0.0
    else Relevant(Top(ranked, k)) as real / (if k < |Top(ranked, k)| then k else |Top(ranked, k)|) as real
  }

  lemma {:induction false} RelevantWithin(grades: seq<nat>)
    ensures Relevant(grades) <= |grades|
    ensures Relevant(grades) == |grades| <==> forall g :: g in grades ==> g >= 1
  {
    if grades != [] {
      var init, g := grades[..|grades| - 1], grades[|grades| - 1];
      RelevantWithin(init);
      assert grades == init + [g];
      assert g in grades && forall x :: x in init ==> x in grades;
    }
  }

  /** Precision lies between 0 and 1, and is 1 exactly when there are results and
      every one of the first k is relevant. */
  lemma PrecisionInUnitInterval(ranked: seq<nat>, k: int)
    ensures 0.0 <= Precision(ranked, k) <= 1.0
    ensures Precision(ranked, k) == 1.0 <==> k > 0 && ranked != [] && forall g :: g in Top(ranked, k) ==> g >= 1
  {
    var top := Top(ranked, k);
    RelevantWithin(top);
    if k > 0 && top != [] {
      QuotientInUnitInterval(Relevant(top) as real, |top| as real);
    }
  }

  function Sum(xs: seq<real>): real {
    if xs == [] then 0.0 else Sum(xs[..|xs| - 1]) + xs[|xs| - 1]
  }

  function Mean(xs: seq<real>): real {
    Sum(xs) / (if |xs| < 1 then 1 else |xs|) as real
  }

  lemma {:induction false} SumInUnitInterval(xs: seq<real>)
    requires forall i :: 0 <= i < |xs| ==> 0.0 <= xs[i] <= 1.0
    ensures 0.0 <= Sum(xs) <= |xs| as real
  {
    if xs != [] {
      SumInUnitInterval(xs[..|xs| - 1]);
    }
  }

  lemma MeanInUnitInterval(xs: seq<real>)
    requires forall i :: 0 <= i < |xs| ==> 0.0 <= xs[i] <= 1.0
    ensures 0.0 <= Mean(xs) <= 1.0
  {
    SumInUnitInterval(xs);
    QuotientInUnitInterval(Sum(xs), (if |xs| < 1 then 1 else |xs|) as real);
  }

  function Score(d: Discount, q: Golden, found: seq<string>, k: int): real {
    Ndcg(d, GradesOf(q.grades, found), GradesOf(q.grades, q.keys), k)
  }

  function Ndcgs(d: Discount, golden: seq<Golden>, search: string -> seq<string>, k: int): (s: seq<real>)
    ensures |s| == |golden|
  {
    if golden == [] then []
    else
      var q := golden[|golden| - 1];
      Ndcgs(d, golden[..|golden| - 1], search, k) + [Score(d, q, search(q.query), k)]
  }

  function Precisions(golden: seq<Golden>, search: string -> seq<string>, k: int): (s: seq<real>)
    ensures |s| == |golden|
  {
    if golden == [] then []
    else
      var q := golden[|golden| - 1];
      Precisions(golden[..|golden| - 1], search, k) + [Precision(GradesOf(q.grades, search(q.query)), k)]
  }

  method ScoreQuery(d: Discount, q: Golden, found: seq<string>, k: int) returns (score: real, precision: real)
    ensures score == Score(d, q, found, k) && precision == Precision(GradesOf(q.grades, found), k)
  {
    var ranked := GradesOf(q.grades, found);
    score := NdcgAtK(d, ranked, GradesOf(q.grades, q.keys), k);
    precision := Precision(ranked, k);
  }

  /** How many results each query returned. */
  function Counts(golden: seq<Golden>, search: string -> seq<string>): (s: seq<nat>)
    ensures |s| == |golden|
  {
    if golden == [] then []
    else Counts(golden[..|golden| - 1], search) + [|search(golden[|golden| - 1].query)|]
  }

  function Empties(counts: seq<nat>): nat {
    if counts == [] then 0 else Empties(counts[..|counts| - 1]) + if counts[|counts| - 1] == 0 then 1 else 0
  }

  /** `zero_result_rate`. */
  function ZeroResultRate(counts: seq<nat>): real {
    if counts == [] then 0.0 else Empties(counts) as real / |counts| as real
  }

  /** What the runner reports. */
  datatype Report = Report(ndcg: real, precision: real, zeroResultRate: real, p95: real, queries: nat)

  function Latencies(elapsed: nat -> real, n: nat): seq<real> {
    if n == 0 then [] else Latencies(elapsed, n - 1) + [elapsed(n - 1)]
  }

  lemma OneQuery(d: Discount, golden: seq<Golden>, search: string -> seq<string>, k: int, i: nat)
    requires i < |golden|
    ensures var q := golden[i];
            && Ndcgs(d, golden[..i + 1], search, k)
               == Ndcgs(d, golden[..i], search, k) + [Score(d, q, search(q.query), k)]
            && Precisions(golden[..i + 1], search, k)
               == Precisions(golden[..i], search, k) + [Precision(GradesOf(q.grades, search(q.query)), k)]
            && Counts(golden[..i + 1], search) == Counts(golden[..i], search) + [|search(q.query)|]
  {
    assert golden[..i + 1][..i] == golden[..i];
  }

  /** `evaluate`'s accumulating loop; `elapsed` is how long the i-th search took. */
  method Evaluate(d: Discount, golden: seq<Golden>, search: string -> seq<string>, elapsed: nat -> real, k: int)
    returns (r: Report)
    ensures r.ndcg == Mean(Ndcgs(d, golden, search, k)) && r.precision == Mean(Precisions(golden, search, k))
    ensures r.zeroResultRate == ZeroResultRate(Counts(golden, search))
    ensures r.p95 == P95(Latencies(elapsed, |golden|)) && r.queries == |golden|
  {
    var ndcgs: seq<real>, precisions: seq<real> := [], [];
    var counts: seq<nat>, latencies: seq<real> := [], [];
    for i := 0 to |golden|
      invariant ndcgs == Ndcgs(d, golden[..i], search, k)
      invariant precisions == Precisions(golden[..i], search, k)
      invariant counts == Counts(golden[..i], search)
      invariant latencies == Latencies(elapsed, i)
    {
      OneQuery(d, golden, search, k, i);
      var found := search(golden[i].query);
      latencies := latencies + [elapsed(i)];
      counts := counts + [|found|];
      var score, p := ScoreQuery(d, golden[i], found, k);
      ndcgs := ndcgs + [score];
      precisions := precisions + [p];
    }
    assert golden[..|golden|] == golden;
    r := Report(Mean(ndcgs), Mean(precisions), ZeroResultRate(counts), P95(latencies), |golden|);
  }

  /** The reported shares lie between 0 and 1 for every golden set, every cutoff from 0
      and every search whose first k results are distinct; the zero-result rate is 0
      exactly when every query found something. */
  lemma ReportInUnitInterval(d: Discount, golden: seq<Golden>, search: string -> seq<string>, k: nat)
    requires ValidDiscount(d)
    requires forall q :: q in golden ==> Enumerates(q.keys, q.grades) && Distinct(Top(search(q.query), k))
    ensures 0.0 <= Mean(Ndcgs(d, golden, search, k)) <= 1.0
    ensures 0.0 <= Mean(Precisions(golden, search, k)) <= 1.0
    ensures 0.0 <= ZeroResultRate(Counts(golden, search)) <= 1.0
    ensures ZeroResultRate(Counts(golden, search)) == 0.0 <==> forall q :: q in golden ==> search(q.query) != []
  {
    ScoresInUnitInterval(d, golden, search, k);
    MeanInUnitInterval(Ndcgs(d, golden, search, k));
    MeanInUnitInterval(Precisions(golden, search, k));
    EmptiesWithin(golden, search);
    if golden != [] {
      QuotientInUnitInterval(Empties(Counts(golden, search)) as real, |golden| as real);
      QuotientIsZero(Empties(Counts(golden, search)) as real, |golden| as real);
    }
  }

  lemma QuotientIsZero(x: real, y: real)
    requires y > 0.0
    ensures x / y == 0.0 <==> x == 0.0
  {
    assert x / y * y == x;
  }

  lemma {:induction false} EmptiesWithin(golden: seq<Golden>, search: string -> seq<string>)
    ensures Empties(Counts(golden, search)) <= |golden|
    ensures Empties(Counts(golden, search)) == 0 <==> forall q :: q in golden ==> search(q.query) != []
  {
    if golden != [] {
      var init, q := golden[..|golden| - 1], golden[|golden| - 1];
      EmptiesWithin(init, search);
      assert golden == init + [q];
      var counts := Counts(golden, search);
      assert counts[..|counts| - 1] == Counts(init, search);
    }
  }

  lemma {:induction false} ScoresInUnitInterval(d: Discount, golden: seq<Golden>, search: string -> seq<string>, k: nat)
    requires ValidDiscount(d)
    requires forall q :: q in golden ==> Enumerates(q.keys, q.grades) && Distinct(Top(search(q.query), k))
    ensures forall i :: 0 <= i < |golden| ==> 0.0 <= Ndcgs(d, golden, search, k)[i] <= 1.0
    ensures forall i :: 0 <= i < |golden| ==> 0.0 <= Precisions(golden, search, k)[i] <= 1.0
  {
    if golden != [] {
      var init, q := golden[..|golden| - 1], golden[|golden| - 1];
      assert q in golden && forall x :: x in init ==> x in golden;
      ScoresInUnitInterval(d, init, search, k);
      NdcgInUnitInterval(d, q.grades, search(q.query), q.keys, k);
      PrecisionInUnitInterval(GradesOf(q.grades, search(q.query)), k);
    }
  }
}
