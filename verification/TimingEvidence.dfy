/** Nearest-rank timing summaries over exact real numbers: what a percentile means, and which inputs the summary
  * accepts. */
module TimingEvidence {
  import opened Wrappers

  datatype TimingSummary = TimingSummary(
    sampleCount: nat, wallSeconds: real, throughputPerSecond: real,
    p50Milliseconds: real, p95Milliseconds: real, maximumMilliseconds: real)

  datatype TimingError = NoSamples | BadWall | BadSample | InvalidSummary

  // ---------- Sorting and counting ----------

  ghost predicate IsSorted(s: seq<real>) {
    forall i, j :: 0 <= i < j < |s| ==> s[i] <= s[j]
  }

  function Insert(x: real, s: seq<real>): seq<real> {
    if s == [] || x <= s[0] then [x] + s else [s[0]] + Insert(x, s[1..])
  }

  function Sorted(s: seq<real>): seq<real> {
    if s == [] then [] else Insert(s[0], Sorted(s[1..]))
  }

  /** How many samples are at most v: the meaning of a percentile, with no order involved. */
  function AtMost(s: seq<real>, v: real): nat {
    if s == [] then 0 else (if s[0] <= v then 1 else 0) + AtMost(s[1..], v)
  }

  /** The count is the number of positions whose sample is at most v. */
  lemma {:induction false} AtMostCounts(s: seq<real>, v: real)
    ensures AtMost(s, v) == |set i | 0 <= i < |s| && s[i] <= v|
  {
    var here := set i | 0 <= i < |s| && s[i] <= v;
    if s == [] {
      assert here == {};
    } else {
      var n := |s| - 1;
      AtMostCounts(s[..n], v);
      AtMostSnoc(s[..n], s[n], v);
      assert s[..n] + [s[n]] == s;
      assert here == (set i | 0 <= i < n && s[..n][i] <= v) + if s[n] <= v then {n} else {};
    }
  }

  lemma {:induction false} AtMostSnoc(s: seq<real>, x: real, v: real)
    ensures AtMost(s + [x], v) == AtMost(s, v) + if x <= v then 1 else 0
  {
    if s != [] {
      AtMostSnoc(s[1..], x, v);
      assert (s + [x])[1..] == s[1..] + [x];
    }
  }

  lemma {:induction false} InsertKeeps(x: real, s: seq<real>)
    requires IsSorted(s)
    ensures IsSorted(Insert(x, s)) && |Insert(x, s)| == |s| + 1
    ensures forall y :: y in Insert(x, s) <==> y == x || y in s
  {
    if s != [] && x > s[0] {
      InsertKeeps(x, s[1..]);
      var rest := Insert(x, s[1..]);
      forall j | 0 <= j < |rest| ensures s[0] <= rest[j] {
        assert rest[j] in rest;
      }
    }
  }

  lemma {:induction false} SortedIsSorted(s: seq<real>)
    ensures IsSorted(Sorted(s)) && |Sorted(s)| == |s|
    ensures forall y :: y in Sorted(s) <==> y in s
  {
    if s != [] {
      SortedIsSorted(s[1..]);
      InsertKeeps(s[0], Sorted(s[1..]));
    }
  }

  lemma {:induction false} InsertCounts(x: real, s: seq<real>, v: real)
    ensures AtMost(Insert(x, s), v) == AtMost([x] + s, v)
  {
    assert ([x] + s)[1..] == s;
    if s != [] && x > s[0] {
      InsertCounts(x, s[1..], v);
      assert ([x] + s[1..])[1..] == s[1..];
    }
  }

  lemma {:induction false} SortedCounts(s: seq<real>, v: real)
    ensures AtMost(Sorted(s), v) == AtMost(s, v)
  {
    if s != [] {
      SortedCounts(s[1..], v);
      InsertCounts(s[0], Sorted(s[1..]), v);
      assert ([s[0]] + Sorted(s[1..]))[1..] == Sorted(s[1..]);
    }
  }

  /** In a sorted sequence more than i samples are at most the i-th, and at most i lie below it. */
  lemma {:induction false} CountAtRank(s: seq<real>, i: nat, v: real)
    requires IsSorted(s) && i < |s|
    ensures s[i] <= v ==> AtMost(s, v) > i
    ensures v < s[i] ==> AtMost(s, v) <= i
  {
    if i > 0 {
      CountAtRank(s[1..], i - 1, v);
    } else if v < s[0] {
      NoneAtMost(s, v);
    }
  }

  lemma {:induction false} NoneAtMost(s: seq<real>, v: real)
    requires forall i :: 0 <= i < |s| ==> v < s[i]
    ensures AtMost(s, v) == 0
  {
    if s != [] {
      NoneAtMost(s[1..], v);
    }
  }

  // ---------- Nearest rank ----------

  function Ceil(x: real): int { -((-x).Floor) }

  function NearestRank(ordered: seq<real>, percentile: real): real
    requires ordered != [] && percentile <= 1.0
  {
    RankInRange(percentile, |ordered|);
    ordered[Rank(percentile, |ordered|)]
  }

  function Rank(percentile: real, n: nat): nat {
    var rank := Ceil(percentile * n as real) - 1;
    if rank < 0 then 0 else rank
  }

  lemma RankInRange(percentile: real, n: nat)
    requires n > 0 && percentile <= 1.0
    ensures Rank(percentile, n) < n
  {
    assert percentile * n as real <= n as real;
  }

  lemma RankGrows(p: real, q: real, n: nat)
    requires p <= q
    ensures Rank(p, n) <= Rank(q, n)
  {
    assert (q - p) * n as real >= 0.0;
    FloorGrows(-(q * n as real), -(p * n as real));
  }

  lemma FloorGrows(x: real, y: real)
    requires x <= y
    ensures x.Floor <= y.Floor
  {
  }

  lemma NearestRankOfSorted(ordered: seq<real>, p: real, w: real)
    requires IsSorted(ordered) && ordered != [] && 0.0 <= p <= 1.0
    ensures var v := NearestRank(ordered, p);
            && v in ordered
            && AtMost(ordered, v) as real >= p * |ordered| as real
            && (w in ordered && AtMost(ordered, w) as real >= p * |ordered| as real ==> v <= w)
  {
    hide AtMost, Rank;
    RankInRange(p, |ordered|);
    RankBrackets(p, |ordered|);
    var i := Rank(p, |ordered|);
    CountAtRank(ordered, i, ordered[i]);
    CountAtRank(ordered, i, w);
  }

  /** The least sample with at least p * n samples at or below it. */
  ghost predicate IsPercentile(samples: seq<real>, p: real, v: real) {
    && v in samples
    && AtMost(samples, v) as real >= p * |samples| as real
    && forall w :: w in samples && AtMost(samples, w) as real >= p * |samples| as real ==> v <= w
  }

  lemma NearestRankIsPercentile(samples: seq<real>, p: real)
    requires samples != [] && 0.0 <= p <= 1.0
    ensures Sorted(samples) != []
    ensures forall v :: IsPercentile(samples, p, v) <==> v == NearestRank(Sorted(samples), p)
  {
    hide AtMost, Rank, Sorted, IsSorted, NearestRank;
    SortedIsSorted(samples);
    var v := NearestRank(Sorted(samples), p);
    NearestRankOfSorted(Sorted(samples), p, v);
    SortedCounts(samples, v);
    forall w | w in samples && AtMost(samples, w) as real >= p * |samples| as real
      ensures v <= w
    {
      NearestRankOfSorted(Sorted(samples), p, w);
      SortedCounts(samples, w);
    }
    assert IsPercentile(samples, p, v);
  }

  lemma RankBrackets(p: real, n: nat)
    requires 0.0 <= p
    ensures (Rank(p, n) + 1) as real >= p * n as real
    ensures Rank(p, n) > 0 ==> Rank(p, n) as real < p * n as real
  {
  }

  // ---------- Rounding ----------

  /** Round to the nearest integer, a tie to the even one. */
  function Round(x: real): (n: int)
    ensures -0.5 <= n as real - x <= 0.5
    ensures n as real - x == 0.5 || n as real - x == -0.5 ==> n % 2 == 0
  {
    var floor := x.Floor;
    var rest := x - floor as real;
    if rest < 0.5 || (rest == 0.5 && floor % 2 == 0) then floor else floor + 1
  }

  /** n parts of the unit make r, and n is the integer nearest to x in parts, of two equally near ones the even one. */
  ghost predicate IsNearest(x: real, parts: real, n: int, r: real) {
    && n as real == r * parts
    && -0.5 <= n as real - x * parts <= 0.5
    && (n as real - x * parts in {-0.5, 0.5} ==> n % 2 == 0)
  }

  /** r is x rounded to a whole number of parts, so many to the unit. */
  ghost predicate IsRounded(x: real, parts: real, r: real) { exists n :: IsNearest(x, parts, n, r) }

  lemma RoundedToNearest(x: real)
    ensures IsRounded(x, 1000.0, RoundMilli(x)) && IsRounded(x, 1000000.0, RoundMicro(x))
  {
    hide Round;
    assert IsNearest(x, 1000.0, Round(x * 1000.0), RoundMilli(x));
    assert IsNearest(x, 1000000.0, Round(x * 1000000.0), RoundMicro(x));
  }

  lemma RoundGrows(x: real, y: real)
    requires x <= y
    ensures Round(x) <= Round(y)
  {
  }

  /** Seconds rounded to whole microseconds, as the wall time is. */
  function RoundMicro(seconds: real): real { Round(seconds * 1000000.0) as real / 1000000.0 }

  lemma RoundMicroPositiveIff(seconds: real)
    requires seconds > 0.0
    ensures RoundMicro(seconds) > 0.0 <==> seconds > 0.0000005
  {
    var n := Round(seconds * 1000000.0);
    assert n > 0 <==> n as real / 1000000.0 > 0.0;
    if n == 1 {
      assert seconds * 1000000.0 != 0.5;
    }
  }

  function RoundMilli(x: real): real { Round(x * 1000.0) as real / 1000.0 }

  lemma RoundMilliGrows(x: real, y: real)
    requires x <= y
    ensures RoundMilli(x) <= RoundMilli(y)
  {
    RoundGrows(x * 1000.0, y * 1000.0);
  }

  lemma RoundMilliNonnegative(x: real)
    requires x >= 0.0
    ensures RoundMilli(x) >= 0.0
  {
    RoundGrows(0.0, x * 1000.0);
  }

  // ---------- The summary ----------

  predicate Ordered(s: TimingSummary) {
    s.p50Milliseconds <= s.p95Milliseconds <= s.maximumMilliseconds
  }

  predicate Valid(s: TimingSummary) {
    && s.sampleCount > 0 && s.wallSeconds > 0.0 && s.throughputPerSecond >= 0.0
    && s.p50Milliseconds >= 0.0 && s.p95Milliseconds >= 0.0 && s.maximumMilliseconds >= 0.0
    && Ordered(s)
  }

  function Describe(samples: seq<real>, wall: real): TimingSummary
    requires samples != [] && wall > 0.0
  {
    SortedIsSorted(samples);
    var ordered := Sorted(samples);
    TimingSummary(
      |ordered|, RoundMicro(wall), RoundMilli(|ordered| as real / wall),
      RoundMilli(NearestRank(ordered, 0.50) * 1000.0),
      RoundMilli(NearestRank(ordered, 0.95) * 1000.0),
      RoundMilli(ordered[|ordered| - 1] * 1000.0))
  }

  function Summarize(samples: seq<real>, wall: real): Result<TimingSummary, TimingError> {
    if samples == [] then Failure(NoSamples)
    else if wall <= 0.0 then Failure(BadWall)
    else if exists sample <- samples :: sample < 0.0 then Failure(BadSample)
    else if !Valid(Describe(samples, wall)) then Failure(InvalidSummary)
    else Success(Describe(samples, wall))
  }

  /** The reported figures are the rounded wall time, throughput, percentiles and maximum of the samples themselves. */
  lemma SummaryReportsPercentiles(samples: seq<real>, wall: real)
    requires Summarize(samples, wall).Success?
    ensures var s := Summarize(samples, wall).value;
            && s.sampleCount == |samples|
            && IsRounded(wall, 1000000.0, s.wallSeconds)
            && wall > 0.0 && IsRounded(|samples| as real / wall, 1000.0, s.throughputPerSecond)
            && (forall v :: IsPercentile(samples, 0.50, v) ==> IsRounded(v * 1000.0, 1000.0, s.p50Milliseconds))
            && (forall v :: IsPercentile(samples, 0.95, v) ==> IsRounded(v * 1000.0, 1000.0, s.p95Milliseconds))
            && (forall v :: v in samples && (forall w :: w in samples ==> w <= v) ==>
                  IsRounded(v * 1000.0, 1000.0, s.maximumMilliseconds))
  {
    hide IsPercentile, NearestRank, Sorted, RoundMilli, RoundMicro, Valid, IsRounded;
    SortedIsSorted(samples);
    NearestRankIsPercentile(samples, 0.50);
    NearestRankIsPercentile(samples, 0.95);
    var ordered := Sorted(samples);
    var last := ordered[|ordered| - 1];
    RoundedToNearest(wall);
    RoundedToNearest(|samples| as real / wall);
    RoundedToNearest(NearestRank(ordered, 0.50) * 1000.0);
    RoundedToNearest(NearestRank(ordered, 0.95) * 1000.0);
    RoundedToNearest(last * 1000.0);
    assert last in ordered;
    forall v | v in samples && forall w :: w in samples ==> w <= v
      ensures v == last
    {
      assert v in ordered;
    }
  }

  lemma DescribeIsOrdered(samples: seq<real>, wall: real)
    requires samples != [] && wall > 0.0
    ensures Ordered(Describe(samples, wall))
  {
    hide Rank, Sorted, RoundMilli, RoundMicro;
    SortedIsSorted(samples);
    var ordered, n := Sorted(samples), |samples|;
    RankInRange(0.50, n);
    RankInRange(0.95, n);
    RankGrows(0.50, 0.95, n);
    RoundMilliGrows(NearestRank(ordered, 0.50) * 1000.0, NearestRank(ordered, 0.95) * 1000.0);
    RoundMilliGrows(NearestRank(ordered, 0.95) * 1000.0, ordered[n - 1] * 1000.0);
  }

  /** A summary is produced exactly for nonnegative samples and a wall time of more than half a microsecond: its
    * own ordering check never fails, but a shorter positive wall time rounds to a zero that its field refuses. */
  lemma SummaryAcceptedIff(samples: seq<real>, wall: real)
    ensures Summarize(samples, wall).Success? <==>
              samples != [] && wall > 0.0000005 && forall sample :: sample in samples ==> sample >= 0.0
  {
    hide NearestRank, Sorted, RoundMilli, RoundMicro;
    if samples != [] && wall > 0.0 && forall sample :: sample in samples ==> sample >= 0.0 {
      SortedIsSorted(samples);
      DescribeIsOrdered(samples, wall);
      DescribeIsNonnegative(samples, wall);
      RoundMicroPositiveIff(wall);
    }
  }

  lemma DescribeIsNonnegative(samples: seq<real>, wall: real)
    requires samples != [] && wall > 0.0 && forall sample :: sample in samples ==> sample >= 0.0
    ensures var s := Describe(samples, wall);
            s.throughputPerSecond >= 0.0 && s.p50Milliseconds >= 0.0 && s.p95Milliseconds >= 0.0 &&
            s.maximumMilliseconds >= 0.0
  {
    hide Rank, Sorted, RoundMilli, RoundMicro;
    SortedIsSorted(samples);
    var ordered, n := Sorted(samples), |samples|;
    RankInRange(0.50, n);
    RankInRange(0.95, n);
    assert NearestRank(ordered, 0.50) in ordered && NearestRank(ordered, 0.95) in ordered;
    assert n as real / wall >= 0.0;
    RoundMilliNonnegative(n as real / wall);
    RoundMilliNonnegative(NearestRank(ordered, 0.50) * 1000.0);
    RoundMilliNonnegative(NearestRank(ordered, 0.95) * 1000.0);
    RoundMilliNonnegative(ordered[n - 1] * 1000.0);
  }
}
