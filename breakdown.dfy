/** The interest-share breakdown shared by the dashboard, the profile
    route and the PDF report: points per area are tallied, then turned into
    rounded percentages of the total, filtered, sorted and cut. */
module Breakdown {
  import opened Sorting
  import opened Ranking

  /** The points of each area, in the order the tally dictionary lists them.
      Every area starts at 0 and only ever gains points, so each is a `nat`. */
  datatype Tally = Tally(technology: nat, creative: nat, business: nat, social: nat, rural: nat) {
    function Plus(o: Tally): Tally {
      Tally(technology + o.technology, creative + o.creative, business + o.business,
            social + o.social, rural + o.rural)
    }

    function Total(): nat {
      technology + creative + business + social + rural
    }
  }

  const Zero := Tally(0, 0, 0, 0, 0)

  lemma PlusZero(a: Tally)
    ensures a.Plus(Zero) == a
  {
  }

  /** Adding points is associative. */
  lemma PlusAssoc(a: Tally, b: Tally, c: Tally)
    ensures a.Plus(b).Plus(c) == a.Plus(b.Plus(c))
  {
  }

  /** `if (c) scores[area] += n`: the points when the test holds, else none. */
  function If(c: bool, n: nat): nat {
    if c then n else 0
  }

  /** The points of every element of `xs`, added up in order. */
  function SumPoints<T>(xs: seq<T>, points: T -> Tally): Tally
  {
    if xs == [] then Zero else SumPoints(xs[..|xs| - 1], points).Plus(points(xs[|xs| - 1]))
  }

  /** `xs.forEach(x => scores += points(x))`. */
  method AddEach<T>(scores: Tally, xs: seq<T>, points: T -> Tally) returns (r: Tally)
    ensures r == scores.Plus(SumPoints(xs, points))
  {
    r := scores;
    for k := 0 to |xs|
      invariant r == scores.Plus(SumPoints(xs[..k], points))
    {
      assert xs[..k + 1][..k] == xs[..k];
      r := r.Plus(points(xs[k]));
    }
    assert xs[..|xs|] == xs;
  }

  /** One more element adds its points at the end. */
  lemma SumPointsSnoc<T>(xs: seq<T>, x: T, points: T -> Tally)
    ensures SumPoints(xs + [x], points) == SumPoints(xs, points).Plus(points(x))
  {
    assert (xs + [x])[..|xs|] == xs;
  }

  /** Adding points for two lists one after the other is adding the points
      of the concatenated list. */
  lemma {:induction false} SumPointsAppend<T>(xs: seq<T>, ys: seq<T>, points: T -> Tally)
    ensures SumPoints(xs + ys, points) == SumPoints(xs, points).Plus(SumPoints(ys, points))
    decreases |ys|
  {
    if ys == [] {
      assert xs + ys == xs;
    } else {
      var init, last := ys[..|ys| - 1], ys[|ys| - 1];
      assert ys == init + [last];
      assert xs + ys == (xs + init) + [last];
      calc {
        SumPoints(xs + ys, points);
        { SumPointsSnoc(xs + init, last, points); }
        SumPoints(xs + init, points).Plus(points(last));
        { SumPointsAppend(xs, init, points); }
        SumPoints(xs, points).Plus(SumPoints(init, points)).Plus(points(last));
        { PlusAssoc(SumPoints(xs, points), SumPoints(init, points), points(last)); }
        SumPoints(xs, points).Plus(SumPoints(init, points).Plus(points(last)));
        { SumPointsSnoc(init, last, points); }
        SumPoints(xs, points).Plus(SumPoints(ys, points));
      }
    }
  }

  /** An element whose points are all zero adds nothing, wherever it stands. */
  lemma SumPointsSkipsZero<T>(xs: seq<T>, ys: seq<T>, x: T, points: T -> Tally)
    requires points(x) == Zero
    ensures SumPoints(xs + [x] + ys, points) == SumPoints(xs + ys, points)
  {
    SumPointsAppend(xs + [x], ys, points);
    SumPointsSnoc(xs, x, points);
    SumPointsAppend(xs, ys, points);
  }

  // --------------------------------------------------------- the pipeline

  datatype AreaScore = AreaScore(area: string, score: int)

  /** A displayed share: an area and its whole percentage. */
  datatype Share = Share(area: string, percentage: int)

  /** `Object.entries(scores)`: the five areas in their fixed order. */
  function Entries(t: Tally): (r: seq<AreaScore>)
    ensures |r| == 5
  {
    [AreaScore("Technology", t.technology), AreaScore("Creative", t.creative),
     AreaScore("Business", t.business), AreaScore("Social", t.social), AreaScore("Rural", t.rural)]
  }

  /** `Math.round(score / total * 100)`. */
  function Percent(score: int, total: int): (r: int)
    requires total > 0
    ensures total * (2 * r - 1) <= 200 * score < total * (2 * r + 1)
    ensures 0 <= score <= total ==> 0 <= r <= 100
    ensures r > 0 <==> 200 * score >= total
  {
    var r := Round(100 * score, total);
    assert r > 0 <==> 200 * score >= total by {
      if r > 0 {
        MulMono(total, 1, 2 * r - 1);
      }
      if 200 * score >= total {
        MulLess(total, 1, 2 * r + 1);
      }
    }
    assert 0 <= score <= total ==> 0 <= r <= 100 by {
      if 0 <= score <= total {
        MulLess(total, 0, 2 * r + 1);
        MulLess(total, 2 * r - 1, 201);
      }
    }
    r
  }

  /** Multiplying by a positive number keeps a strict order. */
  lemma MulLess(t: int, x: int, y: int)
    requires t > 0 && t * x < t * y
    ensures x < y
  {
    assert t * y - t * x == t * (y - x);
  }

  /** Multiplying by a non-negative number keeps a weak order. */
  lemma MulMono(t: int, x: int, y: int)
    requires t >= 0 && x <= y
    ensures t * x <= t * y
  {
    assert t * y - t * x == t * (y - x);
  }

  /** The comparator `b.percentage - a.percentage` of two shares of the same
      total: `a` comes first when its score is higher. */
  predicate HigherScore(a: AreaScore, b: AreaScore) {
    a.score > b.score
  }

  lemma HigherScoreIsStrictWeakOrder()
    ensures StrictWeakOrder(HigherScore)
  {
  }

  /** The first `n` elements, or all of them when there are fewer. */
  function Take<T>(s: seq<T>, n: nat): (r: seq<T>)
    ensures |r| == if |s| < n then |s| else n
    ensures r == s[..|r|]
  {
    if |s| <= n then s else s[..n]
  }

  /** Each entry's rounded percentage of the total. */
  function Rounded(entries: seq<AreaScore>, total: int): (r: seq<Share>)
    requires total > 0
    ensures |r| == |entries|
    ensures forall i :: 0 <= i < |r| ==>
      r[i].area == entries[i].area && r[i].percentage == Percent(entries[i].score, total)
  {
    seq(|entries|, i requires 0 <= i < |entries| => Share(entries[i].area, Percent(entries[i].score, total)))
  }

  function SumOf(shares: seq<Share>): int
  {
    if shares == [] then 0 else shares[0].percentage + SumOf(shares[1..])
  }

  /** `interestStats[0].percentage += 100 - sum` when the sum is not 100. */
  function FixSum(shares: seq<Share>): (r: seq<Share>)
  {
    if |shares| > 0 && SumOf(shares) != 100 then
      shares[0 := shares[0].(percentage := shares[0].percentage + (100 - SumOf(shares)))]
    else shares
  }

  /** After the fix a non-empty list sums to exactly 100, and only the first
      entry's percentage may have changed. */
  lemma FixSumMakesHundred(shares: seq<Share>)
    requires |shares| > 0
    ensures SumOf(FixSum(shares)) == 100
    ensures |FixSum(shares)| == |shares| && FixSum(shares)[1..] == shares[1..]
    ensures FixSum(shares)[0].area == shares[0].area
  {
    var r := FixSum(shares);
    assert r[1..] == shares[1..];
  }

  /** The highest-scoring at most three of `kept`: sorted (stably) by
      non-increasing score, a permutation of `kept` before the cut, and no
      entry left out scores above an entry kept. */
  lemma TopThree(kept: seq<AreaScore>)
    ensures var sorted := Sort(kept, HigherScore);
      var top := Take(sorted, 3);
      && multiset(sorted) == multiset(kept)
      && |top| == (if |kept| < 3 then |kept| else 3)
      && (forall i, j :: 0 <= i < j < |top| ==> top[i].score >= top[j].score)
      && (forall i, j :: 0 <= i < |top| <= j < |sorted| ==> sorted[j].score <= top[i].score)
  {
    HigherScoreIsStrictWeakOrder();
    SortPermutes(kept, HigherScore);
    SortSorted(kept, HigherScore);
  }

  /** Some area holds at least a fifth of the total. */
  lemma SomeAreaHoldsAFifth(t: Tally)
    ensures exists k :: 0 <= k < 5 && 5 * Entries(t)[k].score >= t.Total()
  {
    var e := Entries(t);
    if 5 * t.technology >= t.Total() {
      assert 5 * e[0].score >= t.Total();
    } else if 5 * t.creative >= t.Total() {
      assert 5 * e[1].score >= t.Total();
    } else if 5 * t.business >= t.Total() {
      assert 5 * e[2].score >= t.Total();
    } else if 5 * t.social >= t.Total() {
      assert 5 * e[3].score >= t.Total();
    } else {
      assert 5 * e[4].score >= t.Total();
    }
  }
}
