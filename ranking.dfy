/** Ranking of the recommendation handler: the scored jobs are sorted
    (recommended first, then by score), split into the recommended and the
    other jobs, and the first twenty are given a display match in [80, 95]
    by their position. */
module Ranking {
  import opened Wrappers
  import opened Strings
  import opened Models
  import opened Scoring
  import opened Sorting

  // ------------------------------------------------------------------ sorting

  /** The comparator of the handler's sort: `a` comes strictly before `b`
      when it is recommended and `b` is not, or when both agree on that and
      `a` has the higher score. */
  predicate Precedes(a: Scored, b: Scored) {
    (a.recommended && !b.recommended) || (a.recommended == b.recommended && a.matchScore > b.matchScore)
  }

  lemma PrecedesIsStrictWeakOrder()
    ensures StrictWeakOrder(Precedes)
  {
  }

  predicate IsRecommended(s: Scored) { s.recommended }

  predicate IsOther(s: Scored) { !s.recommended }

  /** Every job of the list, scored for the user. */
  function ScoreAll(u: User, jobs: seq<Job>): (r: seq<Scored>)
    ensures |r| == |jobs|
  {
    seq(|jobs|, k requires 0 <= k < |jobs| => Score(u, jobs[k]))
  }

  /** The scored jobs after the handler's (stable) sort. */
  function Ranked(u: User, jobs: seq<Job>): (r: seq<Scored>)
    ensures |r| == |jobs|
  {
    Sort(ScoreAll(u, jobs), Precedes)
  }

  /** The ranking is a permutation of the scored jobs; recommended jobs come
      first, each group by non-increasing score; jobs with the same flag and
      score keep their input order. */
  lemma RankedIsStableSort(u: User, jobs: seq<Job>, recommended: bool, score: int)
    ensures multiset(Ranked(u, jobs)) == multiset(ScoreAll(u, jobs))
    ensures forall i, j :: 0 <= i < j < |jobs| && Ranked(u, jobs)[i].recommended != Ranked(u, jobs)[j].recommended ==>
              Ranked(u, jobs)[i].recommended
    ensures forall i, j :: 0 <= i < j < |jobs| && Ranked(u, jobs)[i].recommended == Ranked(u, jobs)[j].recommended ==>
              Ranked(u, jobs)[i].matchScore >= Ranked(u, jobs)[j].matchScore
    ensures var tie := (s: Scored) => s.recommended == recommended && s.matchScore == score;
      Filter(Ranked(u, jobs), tie) == Filter(ScoreAll(u, jobs), tie)
  {
    PrecedesIsStrictWeakOrder();
    SortPermutes(ScoreAll(u, jobs), Precedes);
    SortSorted(ScoreAll(u, jobs), Precedes);
    var tie := (s: Scored) => s.recommended == recommended && s.matchScore == score;
    SortStable(ScoreAll(u, jobs), Precedes, tie);
  }

  /** The recommended jobs of a list, in order. */
  function Recs(s: seq<Scored>): (r: seq<Scored>)
    ensures |r| <= |s|
  {
    Filter(s, IsRecommended)
  }

  /** The other jobs of a list, in order. */
  function Others(s: seq<Scored>): (r: seq<Scored>)
    ensures |r| <= |s|
  {
    Filter(s, IsOther)
  }

  /** On a sorted list, "recommended jobs, then the others" is the list itself. */
  lemma {:induction false} SplitOfSortedIsIdentity(s: seq<Scored>)
    requires SortedBy(s, Precedes)
    ensures Recs(s) + Others(s) == s
  {
    if s != [] {
      assert s == [s[0]] + s[1..];
      if s[0].recommended {
        assert SortedBy(s[1..], Precedes) by {
          forall i, j | 0 <= i < j < |s[1..]|
            ensures !Precedes(s[1..][j], s[1..][i])
          {
            assert s[1..][j] == s[j + 1] && s[1..][i] == s[i + 1];
          }
        }
        SplitOfSortedIsIdentity(s[1..]);
      } else {
        forall k | 0 <= k < |s|
          ensures !s[k].recommended
        {
          if k > 0 {
            assert !Precedes(s[k], s[0]);
          }
        }
        FilterEmptyIff(s, IsRecommended);
        FilterKeepsAll(s, IsOther);
      }
    }
  }

  /** The handler's `[...recommended, ...others]` is exactly the ranking. */
  lemma RecsThenOthersIsRanked(u: User, jobs: seq<Job>)
    ensures Recs(Ranked(u, jobs)) + Others(Ranked(u, jobs)) == Ranked(u, jobs)
  {
    PrecedesIsStrictWeakOrder();
    SortSorted(ScoreAll(u, jobs), Precedes);
    SplitOfSortedIsIdentity(Ranked(u, jobs));
  }

  /** The ranking has a recommended job exactly when some job scores as recommended. */
  lemma {:induction false} NoRecsIffNoneRecommended(u: User, jobs: seq<Job>)
    ensures Recs(Ranked(u, jobs)) == [] <==>
      forall k :: 0 <= k < |jobs| ==> !Score(u, jobs[k]).recommended
  {
    var s := ScoreAll(u, jobs);
    SortPermutes(s, Precedes);
    FilterEmptyIff(Ranked(u, jobs), IsRecommended);
    PermutationKeepsSome(Ranked(u, jobs), s, IsRecommended);
    assert forall k :: 0 <= k < |jobs| ==> s[k] == Score(u, jobs[k]);
  }

  // --------------------------------------------------------------- normaliser

  function Clamp(lo: int, hi: int, x: int): (r: int)
    requires lo <= hi
    ensures lo <= r <= hi
    ensures lo <= x <= hi ==> r == x
  {
    if x < lo then lo else if x > hi then hi else x
  }

  /** `Math.round(num / den)` for a positive denominator: halves round up. */
  function Round(num: int, den: int): (r: int)
    requires den > 0
    ensures den * (2 * r - 1) <= 2 * num < den * (2 * r + 1)
  {
    (2 * num + den) / (2 * den)
  }

  function MinOf(xs: seq<int>): (r: int)
    requires |xs| > 0
    ensures forall k :: 0 <= k < |xs| ==> r <= xs[k]
    ensures exists k :: 0 <= k < |xs| && r == xs[k]
  {
    if |xs| == 1 then xs[0]
    else
      var m := MinOf(xs[1..]);
      assert forall k :: 1 <= k < |xs| ==> xs[k] == xs[1..][k - 1];
      if xs[0] <= m then xs[0] else m
  }

  function MaxOf(xs: seq<int>): (r: int)
    requires |xs| > 0
    ensures forall k :: 0 <= k < |xs| ==> xs[k] <= r
    ensures exists k :: 0 <= k < |xs| && r == xs[k]
  {
    if |xs| == 1 then xs[0]
    else
      var m := MaxOf(xs[1..]);
      assert forall k :: 1 <= k < |xs| ==> xs[k] == xs[1..][k - 1];
      if xs[0] >= m then xs[0] else m
  }

  function MatchScores(s: seq<Scored>): (r: seq<int>)
    ensures |r| == |s|
  {
    seq(|s|, k requires 0 <= k < |s| => s[k].matchScore)
  }

  /** The positional match of the job at `i` of the ranked list: 95, 92, 89,
      86, 83 for the first five; later recommended jobs one below their chatbot
      score, kept in [80, 82]; later other jobs 80 + round(2 (s - min) / range)
      with min and max over every position from 5 on. */
  function Positional(sorted: seq<Scored>, i: nat): (r: int)
    requires i < |sorted|
    ensures 80 <= r <= 95
    ensures i < 5 ==> r == 95 - 3 * i
  {
    var raw :=
      if i < 5 then 95 - 3 * i
      else if sorted[i].recommended && sorted[i].chatbotScore.Some? then
        Clamp(80, 82, sorted[i].chatbotScore.value - 1)
      else
        var scores := MatchScores(sorted[5..]);
        var lo := MinOf(scores);
        var hi := MaxOf(scores);
        var range := if hi - lo == 0 then 1 else hi - lo;
        80 + Round(2 * (sorted[i].matchScore - lo), range);
    Clamp(80, 95, raw)
  }

  /** Rounding 2 d / range for 0 <= d <= range gives 0, 1 or 2; 0 at d = 0
      and 2 at d = range. */
  lemma RoundOfShare(d: int, range: int)
    requires 0 <= d <= range && range > 0
    ensures 0 <= Round(2 * d, range) <= 2
    ensures d == 0 ==> Round(2 * d, range) == 0
    ensures d == range ==> Round(2 * d, range) == 2
  {
    var q := Round(2 * d, range);
    assert q == (4 * d + range) / (2 * range);
    assert 0 <= 4 * d + range < 3 * (2 * range);
    DivBelow(4 * d + range, 2 * range, 3);
    if d == 0 {
      DivBelow(range, 2 * range, 1);
    }
    if d == range {
      assert 4 * d + range == 2 * (2 * range) + range;
      assert (2 * (2 * range) + range) / (2 * range) == 2;
    }
  }

  lemma DivBelow(a: int, b: int, k: int)
    requires 0 <= a < k * b && b > 0
    ensures 0 <= a / b < k
  {
    assert b * (a / b) <= a;
  }

  /** From position 5 on the match stays in [80, 82]; for a job without a
      chatbot score it is 80 at the tail's lowest score and 82 at its highest. */
  lemma PositionalTail(sorted: seq<Scored>, i: nat)
    requires 5 <= i < |sorted|
    ensures 80 <= Positional(sorted, i) <= 82
    ensures sorted[i].recommended && sorted[i].chatbotScore.Some? ==>
      Positional(sorted, i) == Clamp(80, 82, sorted[i].chatbotScore.value - 1)
    ensures !(sorted[i].recommended && sorted[i].chatbotScore.Some?) ==>
      (sorted[i].matchScore == MinOf(MatchScores(sorted[5..])) ==> Positional(sorted, i) == 80)
      && (sorted[i].matchScore == MaxOf(MatchScores(sorted[5..])) > MinOf(MatchScores(sorted[5..])) ==>
            Positional(sorted, i) == 82)
  {
    if !(sorted[i].recommended && sorted[i].chatbotScore.Some?) {
      var scores := MatchScores(sorted[5..]);
      assert scores[i - 5] == sorted[i].matchScore;
      var lo := MinOf(scores);
      var hi := MaxOf(scores);
      var range := if hi - lo == 0 then 1 else hi - lo;
      var d := sorted[i].matchScore - lo;
      RoundOfShare(d, range);
    }
  }

  // ------------------------------------------------------------------ listing

  /** One entry of the response. */
  datatype Listed = Listed(job: Job, salary: string, matchValue: int, recommended: bool)

  /** `salaryRange || "<min>L - <max>L"`, a missing bound written as 0. */
  function SalaryText(job: Job): (r: string)
    ensures job.salaryRange != "" ==> r == job.salaryRange
    ensures job.salaryRange == "" ==> |r| > 0 && r[|r| - 1] == 'L'
  {
    if job.salaryRange != "" then job.salaryRange
    else
      var lo := if job.salary.min.Some? then job.salary.min.value else 0;
      var hi := if job.salary.max.Some? then job.salary.max.value else 0;
      IntToString(lo) + "L - " + IntToString(hi) + "L"
  }

  /** The first twenty jobs of the ranked list with their positional match. */
  function Listing(sorted: seq<Scored>): (r: seq<Listed>)
    ensures |r| == if |sorted| < 20 then |sorted| else 20
    ensures forall i :: 0 <= i < |r| ==> r[i].job == sorted[i].job && r[i].recommended == sorted[i].recommended
    ensures forall i :: 0 <= i < |r| ==> 80 <= r[i].matchValue <= 95
    ensures forall i :: 0 <= i < |r| && i < 5 ==> r[i].matchValue == 95 - 3 * i
  {
    var n := if |sorted| < 20 then |sorted| else 20;
    seq(n, i requires 0 <= i < n =>
      Listed(sorted[i].job, SalaryText(sorted[i].job), Positional(sorted, i), sorted[i].recommended))
  }
}
