/** The content of the PDF career report: the interest distribution it
    prints and the caps on what it lists (ten jobs, five key skills per job,
    a 200-character description, three detailed roadmaps). Layout, fonts
    and page breaks are not part of this model. */
module Report {
  import opened Wrappers
  import opened Strings
  import opened Models
  import opened Sorting
  import opened Breakdown
  import opened CleanText

  // ---------------------------------------------------- interest distribution

  /** Science +25 Technology, Commerce +25 Business, Arts +15 Creative and Social. */
  function ReportStreamPoints(stream: string): Tally {
    Tally(technology := If(stream == "Science", 25),
          creative := If(stream == "Arts", 15),
          business := If(stream == "Commerce", 25),
          social := If(stream == "Arts", 15),
          rural := 0)
  }

  const TechWords := ["coding", "robotics", "tech"]
  const CreativeWords := ["art", "design", "creative"]
  const BusinessWords := ["business", "finance", "management"]
  const SocialWords := ["social", "teaching", "community"]
  const RuralWords := ["agriculture", "rural", "farming"]

  /** An interest adds to each area one of whose words occurs in it, lower
      cased: +12, or +15 for Rural, at most once per area. */
  function ReportInterestPoints(i: string): Tally {
    var l := Lower(i);
    Tally(technology := If(ContainsAny(l, TechWords), 12),
          creative := If(ContainsAny(l, CreativeWords), 12),
          business := If(ContainsAny(l, BusinessWords), 12),
          social := If(ContainsAny(l, SocialWords), 12),
          rural := If(ContainsAny(l, RuralWords), 15))
  }

  function ReportTally(u: User): Tally {
    ReportStreamPoints(Stream(u)).Plus(SumPoints(SelectedInterests(u), ReportInterestPoints))
  }

  /** Each area with its rounded percentage of the total, or 0 for every area
      when the total is 0. */
  function Normalized(t: Tally): (r: seq<Share>)
    ensures |r| == 5
    ensures forall i :: 0 <= i < 5 ==> r[i].area == Entries(t)[i].area
    ensures forall i :: 0 <= i < 5 ==>
      r[i].percentage == if t.Total() > 0 then Percent(Entries(t)[i].score, t.Total()) else 0
  {
    var e := Entries(t);
    if t.Total() > 0 then Rounded(e, t.Total())
    else seq(5, i requires 0 <= i < 5 => Share(e[i].area, 0))
  }

  predicate Shown(s: Share) {
    s.percentage > 0
  }

  /** The comparator `b.percentage - a.percentage`. */
  predicate HigherPercentage(a: Share, b: Share) {
    a.percentage > b.percentage
  }

  /** The printed distribution: the areas with a positive rounded percentage,
      stably sorted by non-increasing percentage, with no cap and no
      correction of the sum. */
  function Distribution(t: Tally): seq<Share> {
    Sort(Filter(Normalized(t), Shown), HigherPercentage)
  }

  /** A share of a part of the total lies between 0 and 100. */
  lemma EntryPercentBounded(t: Tally, i: nat)
    requires i < 5 && t.Total() > 0
    ensures 0 <= Percent(Entries(t)[i].score, t.Total()) <= 100
  {
    assert 0 <= Entries(t)[i].score <= t.Total();
  }

  /** The distribution lists exactly the areas whose rounded percentage is
      positive (a permutation of them), each between 1 and 100, in
      non-increasing order; it is empty exactly when the total is 0, and
      never longer than the five areas. */
  lemma DistributionShape(t: Tally)
    ensures var r := Distribution(t);
      && multiset(r) == multiset(Filter(Normalized(t), Shown))
      && |r| <= 5
      && (forall i :: 0 <= i < |r| ==> 0 < r[i].percentage <= 100)
      && (forall i, j :: 0 <= i < j < |r| ==> r[i].percentage >= r[j].percentage)
      && (r == [] <==> t.Total() == 0)
  {
    var kept := Filter(Normalized(t), Shown);
    ShownBounded(t);
    ShownEmptyIff(t);
    SortedShares(kept);
  }

  lemma ShownBounded(t: Tally)
    ensures forall x :: x in Filter(Normalized(t), Shown) ==> 0 < x.percentage <= 100
  {
    FilterSubset(Normalized(t), Shown);
    forall x | x in Filter(Normalized(t), Shown)
      ensures 0 < x.percentage <= 100
    {
      var kept := Filter(Normalized(t), Shown);
      var m :| 0 <= m < |kept| && kept[m] == x;
      assert Shown(kept[m]);
      var k :| 0 <= k < 5 && Normalized(t)[k] == x;
      if t.Total() > 0 {
        EntryPercentBounded(t, k);
      }
    }
  }

  lemma ShownEmptyIff(t: Tally)
    ensures Filter(Normalized(t), Shown) == [] <==> t.Total() == 0
  {
    FilterEmptyIff(Normalized(t), Shown);
    if t.Total() > 0 {
      SomeAreaHoldsAFifth(t);
      var k :| 0 <= k < 5 && 5 * Entries(t)[k].score >= t.Total();
      assert Shown(Normalized(t)[k]);
    }
  }

  /** Sorting shown shares keeps them, their bounds and their number, and
      orders them by non-increasing percentage. */
  lemma SortedShares(kept: seq<Share>)
    requires forall x :: x in kept ==> 0 < x.percentage <= 100
    ensures var r := Sort(kept, HigherPercentage);
      && multiset(r) == multiset(kept)
      && |r| == |kept|
      && (forall i :: 0 <= i < |r| ==> 0 < r[i].percentage <= 100)
      && (forall i, j :: 0 <= i < j < |r| ==> r[i].percentage >= r[j].percentage)
  {
    var r := Sort(kept, HigherPercentage);
    SortPermutes(kept, HigherPercentage);
    assert StrictWeakOrder(HigherPercentage);
    SortSorted(kept, HigherPercentage);
    forall i | 0 <= i < |r|
      ensures 0 < r[i].percentage <= 100
    {
      assert r[i] in multiset(kept);
    }
  }

  /** `interests.forEach(...)` adds each interest's points to the stream's;
      the entries are then normalised, filtered and sorted. */
  method InterestDistribution(u: User) returns (r: seq<Share>)
    ensures r == Distribution(ReportTally(u))
  {
    var scores := ReportStreamPoints(Stream(u));
    scores := AddEach(scores, SelectedInterests(u), ReportInterestPoints);
    r := Sort(Filter(Normalized(scores), Shown), HigherPercentage);
  }

  /** Words are matched as substrings: "art" inside "Startup" counts the
      interest as creative. */
  lemma StartupCountsAsCreative()
    ensures ReportInterestPoints("Startup").creative == 12
  {
    StartupLowerCase();
    StartupHoldsArt();
  }

  lemma StartupLowerCase()
    ensures Lower("Startup") == "startup"
  {
    LowerConcat("S", "tartup");
    LowerOfLowercase("tartup");
    assert "Startup" == "S" + "tartup";
  }

  lemma StartupHoldsArt()
    ensures ContainsAny("startup", CreativeWords)
  {
    var l := "startup";
    assert l[2..5] == "art";
    ContainsAt(l, "art", 2);
    assert CreativeWords[0] == "art";
  }

  // ------------------------------------------------------------ job listing

  /** A recommended job as the report receives it, with its roadmap when one
      was fetched. */
  datatype ReportJob = ReportJob(job: Job, roadmap: Option<Roadmap>)

  /** A numbered job heading. */
  datatype Heading = Heading(number: nat, title: string)

  /** `cleanText(job.title || 'Untitled Job')`. */
  function JobTitle(j: ReportJob): string {
    Clean(Text(if j.job.title != "" then j.job.title else "Untitled Job"))
  }

  function Min(a: nat, b: nat): nat {
    if a < b then a else b
  }

  /** The cleaned titles of the jobs, by position. */
  function Titles(jobs: seq<ReportJob>): (r: seq<string>)
    ensures |r| == |jobs|
    ensures forall k :: 0 <= k < |r| ==> r[k] == JobTitle(jobs[k])
  {
    seq(|jobs|, k requires 0 <= k < |jobs| => JobTitle(jobs[k]))
  }

  /** Some heading carries the number of the job at position `p`. */
  predicate Lists(r: seq<Heading>, p: nat) {
    exists k :: 0 <= k < |r| && r[k].number == p + 1
  }

  /** The headings for titles `i` to `n - 1`, numbered from 1 by position; an
      empty title is skipped and its number left unused. */
  function HeadingsFrom(titles: seq<string>, i: nat, n: nat): (r: seq<Heading>)
    requires i <= n <= |titles|
    ensures |r| <= n - i
    decreases n - i
  {
    if i == n then []
    else
      if titles[i] == "" then HeadingsFrom(titles, i + 1, n)
      else [Heading(i + 1, titles[i])] + HeadingsFrom(titles, i + 1, n)
  }

  /** Each heading carries the number of a position in `i..n` and the
      non-empty title found there, and the numbers increase. */
  predicate WellNumbered(r: seq<Heading>, titles: seq<string>, i: nat, n: nat)
    requires n <= |titles|
  {
    && (forall k :: 0 <= k < |r| ==>
          i < r[k].number <= n && r[k].title == titles[r[k].number - 1] && r[k].title != "")
    && (forall k, m :: 0 <= k < m < |r| ==> r[k].number < r[m].number)
  }

  lemma {:induction false} HeadingsFromAreNumbered(titles: seq<string>, i: nat, n: nat)
    requires i <= n <= |titles|
    ensures WellNumbered(HeadingsFrom(titles, i, n), titles, i, n)
    decreases n - i
  {
    if i < n {
      HeadingsFromAreNumbered(titles, i + 1, n);
      var rest := HeadingsFrom(titles, i + 1, n);
      if titles[i] == "" {
        NumberedFromLater(titles, i, n, rest);
      } else {
        NumberedCons(titles, i, n, rest);
      }
    }
  }

  lemma NumberedFromLater(titles: seq<string>, i: nat, n: nat, r: seq<Heading>)
    requires n <= |titles|
    requires WellNumbered(r, titles, i + 1, n)
    ensures WellNumbered(r, titles, i, n)
  {
  }

  /** A heading for position `i` before headings well numbered from `i + 1`
      keeps them well numbered from `i`. */
  lemma NumberedCons(titles: seq<string>, i: nat, n: nat, rest: seq<Heading>)
    requires i < n <= |titles| && titles[i] != ""
    requires WellNumbered(rest, titles, i + 1, n)
    ensures WellNumbered([Heading(i + 1, titles[i])] + rest, titles, i, n)
  {
    var r := [Heading(i + 1, titles[i])] + rest;
    forall k | 0 <= k < |r|
      ensures i < r[k].number <= n && r[k].title == titles[r[k].number - 1] && r[k].title != ""
    {
      if k > 0 {
        assert r[k] == rest[k - 1];
      }
    }
    forall k, m | 0 <= k < m < |r|
      ensures r[k].number < r[m].number
    {
      assert r[m] == rest[m - 1];
      if k > 0 {
        assert r[k] == rest[k - 1];
      }
    }
  }

  /** Every position in `i..n` with a non-empty title gets a heading. */
  lemma {:induction false} HeadingsFromListAll(titles: seq<string>, i: nat, n: nat, p: nat)
    requires i <= p < n <= |titles| && titles[p] != ""
    ensures Lists(HeadingsFrom(titles, i, n), p)
    decreases n - i
  {
    var rest := HeadingsFrom(titles, i + 1, n);
    var head := if titles[i] == "" then [] else [Heading(i + 1, titles[i])];
    var r := head + rest;
    assert r == HeadingsFrom(titles, i, n);
    if p == i {
      assert r[0].number == p + 1;
    } else {
      HeadingsFromListAll(titles, i + 1, n, p);
      var k :| 0 <= k < |rest| && rest[k].number == p + 1;
      assert r[k + |head|].number == p + 1;
    }
  }

  /** `recommendedJobs.slice(0, 10).forEach(...)` over the jobs' cleaned
      titles: a heading for each of the first ten with a non-empty title,
      numbered by its position, in order. */
  function FirstTenHeadings(titles: seq<string>): (r: seq<Heading>)
    ensures |r| <= 10
    ensures WellNumbered(r, titles, 0, Min(10, |titles|))
    ensures forall p :: 0 <= p < Min(10, |titles|) && titles[p] != "" ==> Lists(r, p)
  {
    var n := Min(10, |titles|);
    HeadingsFromAreNumbered(titles, 0, n);
    forall p | 0 <= p < n && titles[p] != ""
      ensures Lists(HeadingsFrom(titles, 0, n), p)
    {
      HeadingsFromListAll(titles, 0, n, p);
    }
    HeadingsFrom(titles, 0, n)
  }

  /** The report's loop over the first ten jobs, given their cleaned titles
      (`Titles`), adding one heading per job with a printable title. */
  method ListJobs(titles: seq<string>) returns (headings: seq<Heading>)
    ensures headings == FirstTenHeadings(titles)
  {
    var n := Min(10, |titles|);
    headings := [];
    for i := 0 to n
      invariant headings + HeadingsFrom(titles, i, n) == HeadingsFrom(titles, 0, n)
    {
      if titles[i] != "" {
        headings := headings + [Heading(i + 1, titles[i])];
      }
    }
    assert headings + [] == headings;
  }

  /** A cleaned skill name the report prints: neither empty nor an id. */
  predicate PrintableSkill(c: string) {
    c != "" && !IsIdText(c)
  }

  /** `skills.map(cleanText)`. */
  function CleanedAll(skills: seq<string>): (r: seq<string>)
    ensures |r| == |skills|
    ensures forall k :: 0 <= k < |r| ==> r[k] == Clean(Text(skills[k]))
  {
    seq(|skills|, k requires 0 <= k < |skills| => Clean(Text(skills[k])))
  }

  /** The skill names, cleaned one by one, that are neither empty nor an id:
      every such name is kept, in order. */
  function SkillNames(skills: seq<string>): (r: seq<string>)
    ensures r == Filter(CleanedAll(skills), PrintableSkill)
  {
    if skills == [] then []
    else
      var c := Clean(Text(skills[0]));
      assert CleanedAll(skills) == [c] + CleanedAll(skills[1..]);
      FilterCons(c, CleanedAll(skills[1..]), PrintableSkill);
      (if PrintableSkill(c) then [c] else []) + SkillNames(skills[1..])
  }

  /** The "Key Skills" line: at most five names, and whether "..." follows
      because more were left out. */
  function KeySkills(skills: seq<string>): (r: (seq<string>, bool))
    ensures |r.0| <= 5 && |r.0| <= |SkillNames(skills)|
    ensures r.0 == SkillNames(skills)[..|r.0|]
    ensures r.1 <==> |r.0| < |SkillNames(skills)|
    ensures !r.1 ==> r.0 == SkillNames(skills)
  {
    var names := SkillNames(skills);
    (Take(names, 5), |names| > 5)
  }

  /** The description line: the cleaned description cut to 200 characters
      with "..." appended, only when it is longer; nothing when it cleans to
      the empty string. */
  function DescriptionText(desc: string): (r: Option<string>)
    ensures r.None? <==> Clean(Text(desc)) == ""
    ensures r.Some? ==> |r.value| <= 203
    ensures r.Some? && |Clean(Text(desc))| <= 200 ==> r.value == Clean(Text(desc))
    ensures r.Some? && |Clean(Text(desc))| > 200 ==>
      r.value == Clean(Text(desc))[..200] + "..."
  {
    var d := Clean(Text(desc));
    if d == "" then None
    else if |d| > 200 then Some(d[..200] + "...")
    else Some(d)
  }

  predicate HasRoadmap(j: ReportJob) {
    j.roadmap.Some?
  }

  /** `jobsWithRoadmaps.slice(0, 3)`: the first three jobs that carry a
      roadmap, in list order. */
  function DetailedRoadmaps(jobs: seq<ReportJob>): (r: seq<ReportJob>)
    ensures |r| <= 3
    ensures forall k :: 0 <= k < |r| ==> r[k].roadmap.Some? && r[k] in jobs
    ensures |r| == Min(3, |Filter(jobs, HasRoadmap)|)
    ensures r == Filter(jobs, HasRoadmap)[..Min(3, |Filter(jobs, HasRoadmap)|)]
  {
    FilterSubset(jobs, HasRoadmap);
    var r := Take(Filter(jobs, HasRoadmap), 3);
    assert forall k :: 0 <= k < |r| ==> r[k] in Filter(jobs, HasRoadmap);
    r
  }
}
