/** The dashboard's profile aggregators: the interest breakdown, the top
    matches, the skill gaps and the skills to improve, computed from the
    profile and the recommendation list. */
module Dashboard {
  import opened Wrappers
  import opened Strings
  import opened Models
  import opened Sorting
  import opened Scoring
  import opened Ranking
  import opened Breakdown

  // ---------------------------------------------------------------- points

  const TechInterests := ["coding", "robotics", "web dev", "data science", "gaming", "research", "lab work",
                          "analysis", "mathematics", "physics", "statistics", "cyber security", "ai/ml",
                          "programming", "tech"]
  const CreativeInterests := ["art", "design", "music", "writing", "reading", "photography", "videography",
                              "animation", "film making", "cooking", "creative", "drawing", "painting"]
  const BusinessInterests := ["finance", "accounting", "business", "management", "marketing", "entrepreneurship",
                              "economics", "stock market", "investing", "sales"]
  const SocialInterests := ["history", "politics", "social work", "travel", "public speaking", "teaching",
                            "volunteering", "hr", "law", "gardening", "fitness", "health", "community"]
  const RuralInterests := ["agriculture", "farming", "rural", "extension", "field work"]

  const TechSubjects := ["mathematics", "physics", "chemistry", "biology", "programming", "computer", "science"]
  const BusinessSubjects := ["accounts", "economics", "business studies", "commerce"]
  const SocialSubjects := ["history", "politics", "sociology", "geography"]
  const CreativeSubjects := ["english", "art", "music", "drawing"]

  const TechStrengths := ["coding", "programming", "analytical", "problem solving", "logical", "technical",
                          "math", "science", "research"]
  const CreativeStrengths := ["creative", "artistic", "design", "writing", "imagination", "innovation"]
  const BusinessStrengths := ["leadership", "management", "business", "negotiation", "finance", "organization"]
  const SocialStrengths := ["communication", "teaching", "social", "empathy", "helping", "caring", "community"]
  const RuralStrengths := ["field work", "agriculture", "rural", "hands-on", "practical"]

  /** Science +25 Technology, Commerce +25 Business, Arts +15 Creative and Social. */
  function StreamPoints(stream: string): Tally {
    Tally(technology := If(stream == "Science", 25),
          creative := If(stream == "Arts", 15),
          business := If(stream == "Commerce", 25),
          social := If(stream == "Arts", 15),
          rural := 0)
  }

  /** The degree tests are regular expressions, so '.' matches any character. */
  function DegreePoints(degree: string): Tally {
    if degree == "" then Zero
    else
      var tech := AnyWildcardFound(degree, ["B.Tech", "B.E", "B.Sc", "Diploma", "Computer", "Engineering", "Technical", "IT"]);
      var business := AnyWildcardFound(degree, ["B.Com", "BBA", "Management", "Business", "Finance", "Account"]);
      var arts := AnyWildcardFound(degree, ["B.A", "Arts", "Design", "Fine Arts", "Literature"]);
      var education := AnyWildcardFound(degree, ["Education", "Teaching", "B.Ed", "D.Ed"]);
      var agriculture := AnyWildcardFound(degree, ["Agriculture", "Farming", "Rural"]);
      Tally(technology := If(tech, 20) + If(agriculture, 5),
            creative := If(arts, 15),
            business := If(business, 20),
            social := If(arts, 5) + If(education, 20),
            rural := If(agriculture, 25))
  }

  /** An interest counts by exact membership of its lower-cased text. */
  function InterestPoints(i: string): Tally {
    var w := Lower(i);
    Tally(technology := If(w in TechInterests, 12),
          creative := If(w in CreativeInterests, 12),
          business := If(w in BusinessInterests, 12),
          social := If(w in SocialInterests, 12),
          rural := If(w in RuralInterests, 15))
  }

  /** A subject counts only when scored 7 or more. */
  function SubjectPoints(s: SubjectScore): Tally {
    var w := Lower(s.subject);
    var strong := s.score >= 7;
    Tally(technology := If(strong && w in TechSubjects, 8),
          creative := If(strong && w in CreativeSubjects, 8),
          business := If(strong && w in BusinessSubjects, 8),
          social := If(strong && w in SocialSubjects, 8),
          rural := 0)
  }

  function StrengthPoints(strength: string): Tally {
    var w := Lower(strength);
    Tally(technology := If(w in TechStrengths, 10),
          creative := If(w in CreativeStrengths, 10),
          business := If(w in BusinessStrengths, 10),
          social := If(w in SocialStrengths, 10),
          rural := If(w in RuralStrengths, 12))
  }

  function WorkStylePoints(workStyle: string): Tally {
    var w := Lower(workStyle);
    var indoor := workStyle != "" && ContainsAny(w, ["indoor", "desk", "office"]);
    Tally(technology := If(indoor, 5),
          creative := If(workStyle != "" && ContainsAny(w, ["creative", "flexible"]), 8),
          business := If(indoor, 5),
          social := If(workStyle != "" && ContainsAny(w, ["social", "people", "community"]), 8),
          rural := If(workStyle != "" && ContainsAny(w, ["outdoor", "field", "rural"]), 10))
  }

  function CareerPathPoints(careerPath: string): Tally {
    var p := Lower(careerPath);
    var some := careerPath != "";
    Tally(technology := If(some && ContainsAny(p, ["technology", "tech", "degree-based", "engineering"]), 20),
          creative := If(some && ContainsAny(p, ["creative", "arts", "communication"]), 20),
          business := If(some && ContainsAny(p, ["business", "commerce", "finance"]), 20),
          social := If(some && ContainsAny(p, ["social", "teaching", "health"]), 20),
          rural := If(some && ContainsAny(p, ["skill-based", "rural", "agriculture"]), 25))
  }

  /** Any district or state adds 10 to Rural. */
  function LocationPoints(location: Option<Location>): Tally {
    var known := location.Some? && (location.value.district != "" || location.value.state != "");
    Tally(0, 0, 0, 0, If(known, 10))
  }

  /** A recommended job counts by its lower-cased "title tag tag ..." text. */
  function JobPoints(l: Listed): Tally {
    var text := Lower(l.job.title) + " " + Join(LowerAll(l.job.tags), " ");
    Tally(technology := If(ContainsAny(text, ["tech", "computer", "software"]), 5),
          creative := If(ContainsAny(text, ["creative", "design", "art"]), 5),
          business := If(ContainsAny(text, ["bank", "finance", "business"]), 5),
          social := If(ContainsAny(text, ["teacher", "health", "social"]), 5),
          rural := If(ContainsAny(text, ["rural", "agriculture", "extension"]), 8))
  }

  /** `graduationDetails.field || graduationDetails.specialization || ''`;
      the profile has no specialization field, so only the field counts. */
  function Degree(u: User): string {
    if u.graduation.Some? then u.graduation.value.field else ""
  }

  function WorkStyle(u: User): string {
    if u.interests.Some? then u.interests.value.workStyle else ""
  }

  /** The dashboard's tally: every source of points, with only the first
      five recommended jobs. */
  function DashboardTally(u: User, jobs: seq<Listed>): Tally {
    StreamPoints(Stream(u))
      .Plus(DegreePoints(Degree(u)))
      .Plus(SumPoints(SelectedInterests(u), InterestPoints))
      .Plus(SumPoints(SubjectLikes(u), SubjectPoints))
      .Plus(SumPoints(Strengths(u), StrengthPoints))
      .Plus(WorkStylePoints(WorkStyle(u)))
      .Plus(CareerPathPoints(u.chatbot.careerPath))
      .Plus(LocationPoints(u.location))
      .Plus(SumPoints(Take(jobs, 5), JobPoints))
  }

  /** Jobs after the fifth never change the tally. */
  lemma OnlyFirstFiveJobsCount(u: User, jobs: seq<Listed>, more: seq<Listed>)
    requires |jobs| >= 5
    ensures DashboardTally(u, jobs + more) == DashboardTally(u, jobs)
  {
    assert Take(jobs + more, 5) == Take(jobs, 5);
  }

  /** An interest outside every list, such as one not written in exactly the
      listed form, adds nothing wherever it stands. */
  lemma UnlistedInterestAddsNothing(xs: seq<string>, i: string, ys: seq<string>)
    requires Lower(i) !in TechInterests && Lower(i) !in CreativeInterests && Lower(i) !in BusinessInterests
    requires Lower(i) !in SocialInterests && Lower(i) !in RuralInterests
    ensures SumPoints(xs + [i] + ys, InterestPoints) == SumPoints(xs + ys, InterestPoints)
  {
    SumPointsSkipsZero(xs, ys, i, InterestPoints);
  }

  /** A subject scored below 7 adds nothing, whatever its name. */
  lemma WeakSubjectAddsNothing(xs: seq<SubjectScore>, s: SubjectScore, ys: seq<SubjectScore>)
    requires s.score < 7
    ensures SumPoints(xs + [s] + ys, SubjectPoints) == SumPoints(xs + ys, SubjectPoints)
  {
    SumPointsSkipsZero(xs, ys, s, SubjectPoints);
  }

  // ------------------------------------------------------------- breakdown

  const DefaultShares := [Share("Technology", 45), Share("Creative", 30), Share("Social", 25)]
  const GeneralShare := [Share("General", 100)]

  /** The areas whose raw share exceeds 5%: score / total * 100 > 5. */
  function Significant(t: Tally): (r: seq<AreaScore>)
    ensures |r| <= 5
    ensures forall k :: 0 <= k < |r| ==> 20 * r[k].score > t.Total()
    ensures r == [] <==> forall k :: 0 <= k < 5 ==> 20 * Entries(t)[k].score <= t.Total()
  {
    var exceeds := (e: AreaScore) => 20 * e.score > t.Total();
    FilterEmptyIff(Entries(t), exceeds);
    Filter(Entries(t), exceeds)
  }

  /** At most three significant areas, by non-increasing score. */
  function TopAreas(t: Tally): seq<AreaScore> {
    Take(Sort(Significant(t), HigherScore), 3)
  }

  /** The breakdown of a tally: General 100 for a zero total; otherwise the
      top areas' rounded shares with the rounding difference added to the
      first, or General 100 if none is left. */
  function SharesOf(t: Tally): seq<Share> {
    var total := t.Total();
    if total == 0 then GeneralShare
    else
      var stats := FixSum(Rounded(TopAreas(t), total));
      if |stats| > 0 then stats else GeneralShare
  }

  /** `getInterestStats()`: the fixed 45/30/25 without a profile. */
  function InterestStats(userData: Option<User>, jobs: seq<Listed>): seq<Share> {
    if userData.None? then DefaultShares else SharesOf(DashboardTally(userData.value, jobs))
  }

  /** With a positive total some area holds at least a fifth of it, so some
      area is significant. */
  lemma SignificantNotEmpty(t: Tally)
    requires t.Total() > 0
    ensures |Significant(t)| > 0
  {
    SomeAreaHoldsAFifth(t);
    var k :| 0 <= k < 5 && 5 * Entries(t)[k].score >= t.Total();
    assert 20 * Entries(t)[k].score > t.Total();
  }

  /** For a positive total there are one to three top areas, each with more
      than 5% of the total, by non-increasing score, and none left out scores
      above one kept. */
  lemma TopAreasOfPositiveTotal(t: Tally)
    requires t.Total() > 0
    ensures var top := TopAreas(t);
      && 1 <= |top| <= 3
      && (forall i :: 0 <= i < |top| ==> 20 * top[i].score > t.Total())
      && (forall i, j :: 0 <= i < j < |top| ==> top[i].score >= top[j].score)
      && (forall e :: e in Significant(t) && e !in top ==> forall i :: 0 <= i < |top| ==> e.score <= top[i].score)
  {
    SignificantNotEmpty(t);
    TopOfKept(Significant(t), t.Total());
  }

  /** The first three of areas that each score above a twentieth of
      `total`, sorted by non-increasing score. */
  lemma TopOfKept(kept: seq<AreaScore>, total: int)
    requires |kept| > 0 && forall k :: 0 <= k < |kept| ==> 20 * kept[k].score > total
    ensures var top := Take(Sort(kept, HigherScore), 3);
      && 1 <= |top| <= 3
      && (forall i :: 0 <= i < |top| ==> 20 * top[i].score > total)
      && (forall i, j :: 0 <= i < j < |top| ==> top[i].score >= top[j].score)
      && (forall e :: e in kept && e !in top ==> forall i :: 0 <= i < |top| ==> e.score <= top[i].score)
  {
    var sorted := Sort(kept, HigherScore);
    TopThree(kept);
    var top := Take(sorted, 3);
    forall i | 0 <= i < |top|
      ensures 20 * top[i].score > total
    {
      assert top[i] == sorted[i];
      assert sorted[i] in multiset(kept);
    }
    forall e | e in kept && e !in top
      ensures forall i :: 0 <= i < |top| ==> e.score <= top[i].score
    {
      assert e in multiset(sorted);
      var j :| 0 <= j < |sorted| && sorted[j] == e;
      assert j >= |top|;
    }
  }

  /** For a positive total the breakdown shows the top areas in their order,
      each with its rounded share, except the first, which absorbs the
      rounding difference so that the shares sum to exactly 100. */
  lemma SharesOfPositiveTotal(t: Tally)
    requires t.Total() > 0
    ensures var top := TopAreas(t);
      var r := SharesOf(t);
      && |r| == |top|
      && SumOf(r) == 100
      && (forall i :: 0 <= i < |r| ==> r[i].area == top[i].area)
      && (forall i :: 1 <= i < |r| ==> r[i].percentage == Percent(top[i].score, t.Total()))
  {
    TopAreasOfPositiveTotal(t);
    FixSumMakesHundred(Rounded(TopAreas(t), t.Total()));
  }

  lemma DefaultSharesSumToHundred()
    ensures SumOf(DefaultShares) == 100
  {
    assert SumOf(DefaultShares[1..][1..]) == 25;
  }

  /** The breakdown of any tally sums to exactly 100 and has one to three
      entries. */
  lemma SharesOfSumToHundred(t: Tally)
    ensures SumOf(SharesOf(t)) == 100 && 1 <= |SharesOf(t)| <= 3
  {
    if t.Total() != 0 {
      TopAreasOfPositiveTotal(t);
      SharesOfPositiveTotal(t);
    } else {
      assert SumOf(GeneralShare[1..]) == 0;
    }
  }

  /** Every breakdown the dashboard shows sums to exactly 100 and has one to
      three entries. */
  lemma InterestStatsSumToHundred(userData: Option<User>, jobs: seq<Listed>)
    ensures var r := InterestStats(userData, jobs);
      SumOf(r) == 100 && 1 <= |r| <= 3
  {
    if userData.None? {
      DefaultSharesSumToHundred();
    } else {
      SharesOfSumToHundred(DashboardTally(userData.value, jobs));
    }
  }

  /** The rounding fix can put the first area below the second: shares of
      33.5, 33.5 and 33 round to 34, 34 and 33, and the first drops to 33. */
  lemma FixCanReorder()
    ensures SharesOf(Tally(67, 67, 0, 66, 0)) ==
      [Share("Technology", 33), Share("Creative", 34), Share("Social", 33)]
  {
    var kept := [AreaScore("Technology", 67), AreaScore("Creative", 67), AreaScore("Social", 66)];
    var rounded := [Share("Technology", 34), Share("Creative", 34), Share("Social", 33)];
    TopAreasExample(kept);
    RoundedExample(kept, rounded);
    FixSumExample(rounded);
  }

  /** The top areas of the tally 67, 67, 0, 66, 0. */
  lemma TopAreasExample(kept: seq<AreaScore>)
    requires kept == [AreaScore("Technology", 67), AreaScore("Creative", 67), AreaScore("Social", 66)]
    ensures TopAreas(Tally(67, 67, 0, 66, 0)) == kept
  {
    assert Significant(Tally(67, 67, 0, 66, 0)) == kept;
    SortOfSorted(kept, HigherScore);
  }

  /** The rounded shares of 67, 67 and 66 out of 200. */
  lemma RoundedExample(kept: seq<AreaScore>, rounded: seq<Share>)
    requires kept == [AreaScore("Technology", 67), AreaScore("Creative", 67), AreaScore("Social", 66)]
    requires rounded == [Share("Technology", 34), Share("Creative", 34), Share("Social", 33)]
    ensures Rounded(kept, 200) == rounded
  {
    assert Percent(67, 200) == 34;
    assert Percent(66, 200) == 33;
    var r := Rounded(kept, 200);
    assert r[0] == rounded[0] && r[1] == rounded[1] && r[2] == rounded[2];
  }

  /** The rounded shares sum to 101, so the first loses one. */
  lemma FixSumExample(rounded: seq<Share>)
    requires rounded == [Share("Technology", 34), Share("Creative", 34), Share("Social", 33)]
    ensures FixSum(rounded) == [Share("Technology", 33), Share("Creative", 34), Share("Social", 33)]
  {
    assert SumOf(rounded[2..]) == 33;
    assert SumOf(rounded[1..]) == 67;
  }

  /** `getInterestStats()`, step by step: the tally is built up source by
      source, the top shares are rounded and the first is bumped in place. */
  method GetInterestStats(userData: Option<User>, jobs: seq<Listed>) returns (stats: seq<Share>)
    ensures stats == InterestStats(userData, jobs)
  {
    if userData.None? {
      return DefaultShares;
    }
    var scores := DashboardScores(userData.value, jobs);
    stats := SharesFromScores(scores);
  }

  /** The second half of `getInterestStats()`: the top shares are rounded
      and the first is bumped in place when they do not sum to 100. */
  method SharesFromScores(scores: Tally) returns (stats: seq<Share>)
    ensures stats == SharesOf(scores)
  {
    var total := scores.Total();
    if total == 0 {
      return GeneralShare;
    }
    stats := BumpFirst(Rounded(TopAreas(scores), total));
    if |stats| == 0 {
      stats := GeneralShare;
    }
  }

  /** The rounding fix: the first share is bumped in place by the
      difference when the shares do not sum to 100. */
  method BumpFirst(shares: seq<Share>) returns (stats: seq<Share>)
    ensures stats == FixSum(shares)
  {
    stats := shares;
    var sum := SumOf(stats);
    if sum != 100 && |stats| > 0 {
      var diff := 100 - sum;
      stats := stats[0 := stats[0].(percentage := stats[0].percentage + diff)];
    }
  }

  /** The tally of `getInterestStats()`, added up source by source. */
  method DashboardScores(u: User, jobs: seq<Listed>) returns (scores: Tally)
    ensures scores == DashboardTally(u, jobs)
  {
    scores := StreamPoints(Stream(u));
    scores := scores.Plus(DegreePoints(Degree(u)));
    scores := AddEach(scores, SelectedInterests(u), InterestPoints);
    scores := AddEach(scores, SubjectLikes(u), SubjectPoints);
    scores := AddEach(scores, Strengths(u), StrengthPoints);
    scores := scores.Plus(WorkStylePoints(WorkStyle(u)));
    scores := scores.Plus(CareerPathPoints(u.chatbot.careerPath));
    scores := scores.Plus(LocationPoints(u.location));
    if |jobs| > 0 {
      scores := AddEach(scores, Take(jobs, 5), JobPoints);
    } else {
      assert Take(jobs, 5) == [];
      PlusZero(scores);
    }
  }

  // ------------------------------------------------------------ top matches

  datatype TopMatch = TopMatch(title: string, matchValue: int, tags: seq<string>, id: string,
                               company: string, location: string)

  /** `getTopMatches()`: the first three entries; a match outside [80, 95]
      (or 0) is replaced by 93, 88, 83 by position. `indexOf` finds the entry
      itself, so the position is its own index. */
  function TopMatches(jobs: seq<Listed>): (r: seq<TopMatch>)
    ensures |r| == if |jobs| < 3 then |jobs| else 3
    ensures forall i :: 0 <= i < |r| ==>
      && r[i].title == jobs[i].job.title && r[i].id == jobs[i].job.id
      && 80 <= r[i].matchValue <= 95
      && (80 <= jobs[i].matchValue <= 95 ==> r[i].matchValue == jobs[i].matchValue)
      && (!(80 <= jobs[i].matchValue <= 95) ==> r[i].matchValue == 93 - 5 * i)
  {
    var n := if |jobs| < 3 then |jobs| else 3;
    seq(n, i requires 0 <= i < n =>
      var m := jobs[i].matchValue;
      var shown := if m == 0 || m < 80 || m > 95 then [93, 88, 83][i] else m;
      TopMatch(jobs[i].job.title, shown, jobs[i].job.tags, jobs[i].job.id, jobs[i].job.company,
               jobs[i].job.location))
  }

  /** On the recommendation list the safety check never fires: the top
      matches show 95, 92 and 89. */
  lemma TopMatchesOfListing(sorted: seq<Scored>)
    ensures var r := TopMatches(Listing(sorted));
      forall i :: 0 <= i < |r| ==> r[i].matchValue == 95 - 3 * i
  {
  }

  // ------------------------------------------------------------- skill gaps

  datatype Gap = Gap(name: string, current: int, target: int)

  const DefaultGaps := [Gap("Advanced Communication", 60, 90), Gap("Technical Proficiency", 40, 80),
                        Gap("Project Management", 30, 75)]

  /** Some strength contains the skill or is contained in it, both lower-cased. */
  predicate HasSkill(strengths: seq<string>, skill: string) {
    exists k :: 0 <= k < |strengths| &&
      (Contains(Lower(strengths[k]), Lower(skill)) || Contains(Lower(skill), Lower(strengths[k])))
  }

  /** 40 by default, 70 for a held skill, and min(90, score * 10) when a
      non-zero subject score is stored under the skill's exact name. */
  function CurrentLevel(u: User, skill: string): (r: int)
    ensures r <= 90
  {
    var score := ScoreOf(SubjectLikes(u), skill);
    if score.Some? && score.value != 0 then (if 10 * score.value < 90 then 10 * score.value else 90)
    else if HasSkill(Strengths(u), skill) then 70
    else 40
  }

  /** `getSkillGaps()`: the top job's first three skills against target 85,
      or the fixed defaults without a profile, without jobs, or when the
      top job lists no skill. */
  function SkillGaps(userData: Option<User>, jobs: seq<Listed>): (r: seq<Gap>)
    ensures userData.None? || jobs == [] || jobs[0].job.skills == [] <==> r == DefaultGaps
    ensures r != DefaultGaps ==>
      && |r| == (if |jobs[0].job.skills| < 3 then |jobs[0].job.skills| else 3)
      && forall i :: 0 <= i < |r| ==>
           r[i].name == jobs[0].job.skills[i] && r[i].target == 85
           && r[i].current == CurrentLevel(userData.value, jobs[0].job.skills[i])
  {
    if userData.None? || jobs == [] then DefaultGaps
    else
      var skills := Take(jobs[0].job.skills, 3);
      var gaps := seq(|skills|, i requires 0 <= i < |skills| =>
        Gap(skills[i], CurrentLevel(userData.value, skills[i]), 85));
      if |gaps| > 0 then
        assert gaps[0].target != DefaultGaps[0].target;
        gaps
      else DefaultGaps
  }

  /** An empty strength is contained in every skill name, so it makes every
      skill count as held. */
  lemma EmptyStrengthHoldsEverySkill(strengths: seq<string>, skill: string)
    requires "" in strengths
    ensures HasSkill(strengths, skill)
  {
    var k :| 0 <= k < |strengths| && strengths[k] == "";
    assert Lower(strengths[k]) == "";
    ContainsEmpty(Lower(skill));
  }

  /** `getSkillsToImprove()`: the subjects scored below 7, or three fixed
      defaults when there are none. */
  function SkillsToImprove(userData: Option<User>): (r: seq<string>)
    ensures HasWeakSubject(userData) ==>
      forall s :: s in r <==>
        exists k :: 0 <= k < |SubjectLikes(userData.value)| &&
          SubjectLikes(userData.value)[k].subject == s && SubjectLikes(userData.value)[k].score < 7
    ensures !HasWeakSubject(userData) ==> r == ["Public Speaking", "Critical Thinking", "Time Management"]
  {
    var weak := if userData.Some? then WeakSubjects(SubjectLikes(userData.value)) else [];
    assert |weak| > 0 <==> HasWeakSubject(userData) by {
      if |weak| > 0 {
        assert weak[0] in weak;
      }
      if HasWeakSubject(userData) {
        var k :| 0 <= k < |SubjectLikes(userData.value)| && SubjectLikes(userData.value)[k].score < 7;
        assert SubjectLikes(userData.value)[k].subject in weak;
      }
    }
    if |weak| > 0 then weak else ["Public Speaking", "Critical Thinking", "Time Management"]
  }

  predicate HasWeakSubject(userData: Option<User>) {
    userData.Some? && exists k :: 0 <= k < |SubjectLikes(userData.value)| && SubjectLikes(userData.value)[k].score < 7
  }
}
