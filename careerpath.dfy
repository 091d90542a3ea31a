/** The career-path page: its own default roadmap built from a job, the
    80-95 display normalisation of the match, the fetch effect that fills the
    page's state, and the choice between live data and the built-in mock
    table. */
module CareerPath {
  import opened Wrappers
  import opened Models
  import opened Sorting
  import opened JobRoutes
  import opened RoadmapRoutes

  // ------------------------------------------------------------ normalising

  /** `Math.round(x)`: the nearest integer, halves rounded up. */
  function RoundHalfUp(x: real): (r: int)
    ensures r as real - 0.5 <= x < r as real + 0.5
  {
    (x + 0.5).Floor
  }

  /** `a || b` on numbers: `a` unless it is 0 (or absent, written 0). */
  function OrElse(a: real, b: real): (r: real)
    ensures a != 0.0 ==> r == a
    ensures a == 0.0 ==> r == b
  {
    if a != 0.0 then a else b
  }

  /** The page's match normalisation: a falsy value or one outside [80, 95]
      becomes 80 + m * 15 / 100 kept in [80, 95] when positive, else 88;
      the result is rounded. */
  function Normalise(m: real): (r: int)
    ensures 80 <= r <= 95
    ensures 80.0 <= m <= 95.0 ==> r as real - 0.5 <= m < r as real + 0.5
    ensures m <= 0.0 ==> r == 88
    ensures m >= 100.0 ==> r == 95
  {
    var v :=
      if m == 0.0 || m < 80.0 || m > 95.0 then
        (if m > 0.0 then ClampReal(80.0, 95.0, 80.0 + (m / 100.0) * 15.0) else 88.0)
      else m;
    RoundHalfUp(v)
  }

  /** A whole number already in [80, 95] is shown unchanged. */
  lemma NormaliseKeepsWholeInRange(n: int)
    requires 80 <= n <= 95
    ensures Normalise(n as real) == n
  {
  }

  /** Normalising a normalised value changes nothing. */
  lemma NormaliseIdempotent(m: real)
    ensures Normalise(Normalise(m) as real) == Normalise(m)
  {
    NormaliseKeepsWholeInRange(Normalise(m));
  }

  /** The normalisation is not monotone: 79 is rescaled to 91.85 and shows
      as 92, while 80 is already in range and shows as 80. */
  lemma NormaliseNotMonotone()
    ensures Normalise(79.0) == 92 && Normalise(80.0) == 80
  {
    assert 80.0 + (79.0 / 100.0) * 15.0 == 91.85;
  }

  // ------------------------------------------------------------ the job JSON

  /** The job as the page receives it: the record plus its `matchScore` and
      `match` fields, 0 standing for absent. */
  datatype JobJson = JobJson(job: Job, matchScore: real, matchField: real)

  /** The JSON the single-job view sends: a plain job has its stored score
      and no `match`; a priced one carries the computed value in both. */
  function JsonOf(v: DetailView): (r: JobJson)
    ensures r.job == v.job
    ensures v.Priced? ==> r.matchScore == v.matchValue && r.matchField == v.matchValue
    ensures v.Plain? ==> r.matchScore == v.job.matchScore && r.matchField == 0.0
  {
    match v
    case Plain(job) => JobJson(job, job.matchScore, 0.0)
    case Priced(job, value, _) => JobJson(job, value, value)
  }

  // ---------------------------------------------------- the page's roadmap

  /** The page's own rural dispatch: the generator's table without the
      agriculture group. */
  function PageTemplateFor(job: Job): (t: Template)
  {
    match job.category
    case Rural =>
      if SomeTagIncludes(job.tags, ["Teaching", "Education"]) then TeachingPlan
      else if SomeTagIncludes(job.tags, ["Healthcare", "Health"]) then HealthPlan
      else if SomeTagIncludes(job.tags, ["Banking", "Bank"]) then BankingPlan
      else if SomeTagIncludes(job.tags, ["Technical", "Electrical", "Mechanical"]) then TechnicalPlan
      else GenericRuralPlan
    case DegreeBased => DegreePlan
    case SkillBased => SkillPlan
    case _ => DefaultPlan
  }

  /** The page picks the generator's template for every job except those the
      generator sends to the agriculture template, which the page sends to the
      technical or the generic rural one; it never picks agriculture. */
  lemma PageDispatchSkipsAgriculture(job: Job)
    ensures PageTemplateFor(job) != AgriculturePlan
    ensures TemplateFor(job) != AgriculturePlan ==> PageTemplateFor(job) == TemplateFor(job)
    ensures TemplateFor(job) == AgriculturePlan ==>
      PageTemplateFor(job) == (if SomeTagIncludes(job.tags, ["Technical", "Electrical", "Mechanical"])
                               then TechnicalPlan else GenericRuralPlan)
  {
  }

  /** The one step the built roadmap carries. */
  const GetStartedStep := PendingStep("Get Started", "Begin your journey", RocketIcon, 1)

  /** The page's skill style: the generator's required style with the
      description written "Required skill". */
  const PageSkillStyle := SkillStyle("Required skill", PinIcon, "text-blue-600", "bg-blue-50", 30, 20, false)

  /** `job.salaryRange || "₹2L - ₹5L"`. */
  function PageSalaryText(job: Job): (r: string)
    ensures job.salaryRange != "" ==> r == job.salaryRange
  {
    if job.salaryRange != "" then job.salaryRange
    else RupeeSign + "2L - " + RupeeSign + "5L"
  }

  function PageStats(job: Job): (r: seq<Stat>)
    ensures |r| == 4
  {
    [Stat("AVG SALARY", PageSalaryText(job), DollarIcon, false),
     Stat("LOCATION", job.location, LocationPinIcon, false),
     Stat("TYPE", job.jobType.Name(), TimerIcon, false),
     Stat("CATEGORY", job.category.Name(), BriefcaseIcon, false)]
  }

  /** `createDefaultRoadmapFromJob(job)`. The template's steps are computed
      and then dropped (see `PageDefaultSteps`): the roadmap carries the
      single "Get Started" step. */
  function PageDefaultRoadmap(j: JobJson): (r: Roadmap)
  {
    var job := j.job;
    Roadmap(
      job.title,
      "",
      if job.description != "" then job.description else "Your personalized roadmap to success.",
      TagChips(job.tags),
      Normalise(OrElse(j.matchScore, j.matchField)) as real,
      PageStats(job),
      [GetStartedStep],
      JobSkills(job.skills, PageSkillStyle),
      DefaultCourse)
  }

  /** The built roadmap: the single "Get Started" step; the first min(3, n)
      job skills, Essential, with progress 30 + 20i; a whole match in
      [80, 95]; the default course; and the generator's stats except that a
      missing salary range reads "₹2L - ₹5L". */
  lemma PageDefaultRoadmapShape(j: JobJson)
    ensures var r := PageDefaultRoadmap(j);
      && r.steps == [GetStartedStep]
      && |r.skills| == (if |j.job.skills| < 3 then |j.job.skills| else 3)
      && (forall i :: 0 <= i < |r.skills| ==>
            r.skills[i].name == j.job.skills[i] && r.skills[i].level == "Essential"
            && r.skills[i].progress == 30 + 20 * i)
      && 80.0 <= r.matchValue <= 95.0 && r.matchValue == r.matchValue.Floor as real
      && r.course == DefaultCourse
      && (j.job.salaryRange != "" ==> r.stats == DefaultStats(j.job))
      && (j.job.salaryRange == "" ==> r.stats[1..] == DefaultStats(j.job)[1..])
  {
    PageDefaultStats(j);
  }

  /** The one step kept is the default template's first, although the
      job's own template, computed and dropped, has at least four. */
  lemma PageDefaultSteps(job: Job)
    ensures [GetStartedStep] == StepsFor(DefaultPlan, job.title)[..1]
    ensures |StepsFor(PageTemplateFor(job), job.title)| >= 4
  {
    StepsNumberedAndPending(PageTemplateFor(job), job.title);
  }

  lemma PageDefaultStats(j: JobJson)
    ensures var r := PageDefaultRoadmap(j);
      && (j.job.salaryRange != "" ==> r.stats == DefaultStats(j.job))
      && (j.job.salaryRange == "" ==> r.stats[1..] == DefaultStats(j.job)[1..])
  {
    var r := PageDefaultRoadmap(j);
    assert r.stats[1..] == DefaultStats(j.job)[1..];
  }

  /** What the fetch effect stores when the roadmap request is refused: the
      built roadmap, whose match the job's score then overwrites when truthy. */
  function FallbackRoadmap(j: JobJson): (r: Roadmap)
    ensures j.matchScore != 0.0 ==> r.matchValue == j.matchScore
    ensures j.matchScore == 0.0 ==> r.matchValue == Normalise(j.matchField) as real
    ensures r.steps == [GetStartedStep]
  {
    var d := PageDefaultRoadmap(j);
    if j.matchScore != 0.0 then d.(matchValue := j.matchScore) else d
  }

  /** The overwrite can take the stored match out of [80, 95]: a job whose
      score is 150 gets a roadmap with match 150. */
  lemma FallbackRoadmapCanLeaveRange(job: Job)
    ensures FallbackRoadmap(JobJson(job, 150.0, 150.0)).matchValue == 150.0
  {
  }

  // ------------------------------------------------------------- the page

  /** How a request ended: a parsed OK body, a non-OK status, or a thrown error. */
  datatype Fetched<T> = Ok(value: T) | NotOk | Threw

  /** The page's state: the job and roadmap data and the loading flag. */
  class CareerPathPage {
    var jobData: Option<JobJson>
    var roadmapData: Option<Roadmap>
    var loading: bool

    constructor()
      ensures jobData == None && roadmapData == None && loading
    {
      jobData := None;
      roadmapData := None;
      loading := true;
    }

    /** The fetch effect. Without a job id nothing is fetched. An OK job
        stores the job, then the roadmap: the fetched one, or the fallback
        roadmap when the request is refused; a thrown error leaves it as it
        was. A refused or failed job request leaves both as they were.
        Loading always ends. */
    method FetchJobData(jobId: string, jobFetch: Fetched<JobJson>, roadmapFetch: Fetched<Roadmap>)
      modifies this
      ensures !loading
      ensures jobId == "" || !jobFetch.Ok? ==> jobData == old(jobData) && roadmapData == old(roadmapData)
      ensures jobId != "" && jobFetch.Ok? ==>
        && jobData == Some(jobFetch.value)
        && roadmapData == (match roadmapFetch
                           case Ok(rm) => Some(rm)
                           case NotOk => Some(FallbackRoadmap(jobFetch.value))
                           case Threw => old(roadmapData))
    {
      if jobId != "" {
        match jobFetch {
          case Ok(job) =>
            jobData := Some(job);
            match roadmapFetch {
              case Ok(rm) =>
                roadmapData := Some(rm);
              case NotOk =>
                var defaultRoadmap := PageDefaultRoadmap(job);
                if job.matchScore != 0.0 {
                  defaultRoadmap := defaultRoadmap.(matchValue := job.matchScore);
                }
                roadmapData := Some(defaultRoadmap);
              case Threw =>
            }
          case NotOk =>
          case Threw =>
        }
      }
      loading := false;
    }

    /** What the page shows for `jobId` in its current state. */
    function Current(jobId: string): (r: Shown)
      reads this
      ensures loading <==> r == Loading
    {
      if loading then Loading else Display(jobId, jobData, roadmapData)
    }
  }

  /** A live view is built from the job and roadmap data; a mock view shows
      an entry of the built-in table. */
  datatype Shown =
    | Loading
    | Live(view: CareerView)
    | Mock(key: string, title: string, matchValue: int)

  datatype CareerView = CareerView(
    title: string,
    description: string,
    tags: seq<TagChip>,
    matchValue: int,
    stats: seq<Stat>,
    steps: seq<Step>,
    skills: seq<Skill>,
    course: Course)

  /** The built-in table: title and match of each entry. */
  const MockTable: map<string, (string, int)> := map[
    "1" := ("Software Engineer", 95),
    "2" := ("Frontend Developer", 90),
    "3" := ("Data Scientist", 92),
    "4" := ("Cyber Security Analyst", 88),
    "5" := ("Graphic Designer", 87),
    "6" := ("UX Researcher", 82),
    "7" := ("Content Strategist", 80),
    "8" := ("Product Manager", 92),
    "9" := ("Financial Analyst", 75),
    "10" := ("Digital Marketer", 88),
    "default" := ("Career Path", 0)]

  /** `jobDatabase[jobId] || jobDatabase['1']`. */
  function MockKey(jobId: string): (k: string)
    ensures k in MockTable
    ensures jobId in MockTable ==> k == jobId
  {
    if jobId in MockTable then jobId else "1"
  }

  /** The course shown when the roadmap has none. */
  const PageFallbackCourse := Course("Career Fundamentals", "Getting Started", "Career Coach", "Mentor", "", "")

  /** The live view. The roadmap's lists are arrays, truthy even when empty,
      so tags, stats, steps and skills always come from the roadmap; the
      description falls back to the job's; the course to the fixed one when
      the roadmap has none; the match is normalised from the roadmap's match,
      else the job's `matchScore`, else its `match`. */
  function View(j: JobJson, rm: Roadmap): (r: CareerView)
    ensures 80 <= r.matchValue <= 95
    ensures r.title == j.job.title
  {
    CareerView(
      j.job.title,
      if rm.description != "" then rm.description else j.job.description,
      rm.tags,
      Normalise(OrElse(rm.matchValue, OrElse(j.matchScore, j.matchField))),
      rm.stats,
      rm.steps,
      rm.skills,
      if rm.course == EmptyCourse then PageFallbackCourse else rm.course)
  }

  /** Live data when both the job and a roadmap are present, else the mock
      entry for the id, or entry "1", shown without normalisation. */
  function Display(jobId: string, jobData: Option<JobJson>, roadmapData: Option<Roadmap>): (r: Shown)
    ensures r.Live? <==> jobData.Some? && roadmapData.Some?
    ensures r.Live? ==> 80 <= r.view.matchValue <= 95
    ensures r.Mock? ==> r.key == MockKey(jobId) && (r.title, r.matchValue) == MockTable[r.key]
  {
    if jobData.Some? && roadmapData.Some? then Live(View(jobData.value, roadmapData.value))
    else
      var key := MockKey(jobId);
      Mock(key, MockTable[key].0, MockTable[key].1)
  }

  /** Without live data, id "9" shows 75, outside [80, 95], and an unknown
      id shows entry "1". */
  lemma MockIsNotNormalised()
    ensures Display("9", None, None) == Mock("9", "Financial Analyst", 75)
    ensures Display("42", None, None) == Mock("1", "Software Engineer", 95)
  {
  }

  /** When the roadmap request is refused, the page shows the normalised job
      score: the overwrite of the stored match is undone by the display's
      own normalisation. */
  lemma RefusedRoadmapShowsJobScore(j: JobJson)
    ensures View(j, FallbackRoadmap(j)).matchValue == Normalise(OrElse(j.matchScore, j.matchField))
    ensures View(j, FallbackRoadmap(j)).steps == [GetStartedStep]
  {
    if j.matchScore == 0.0 {
      NormaliseIdempotent(j.matchField);
      if j.matchField == 0.0 {
        assert Normalise(j.matchField) == 88;
      }
    }
  }

  /** After the fetch effect, the page shows live data exactly when the job
      request succeeded and the roadmap request did not throw (for a fresh
      page); with the roadmap refused, the live match is the job's
      normalised score. */
  lemma FreshPageAfterFetch(jobId: string, jobFetch: Fetched<JobJson>, roadmapFetch: Fetched<Roadmap>)
    ensures var jobData := if jobId != "" && jobFetch.Ok? then Some(jobFetch.value) else None;
      var roadmapData :=
        if jobId != "" && jobFetch.Ok? then
          (match roadmapFetch
           case Ok(rm) => Some(rm)
           case NotOk => Some(FallbackRoadmap(jobFetch.value))
           case Threw => None)
        else None;
      var r := Display(jobId, jobData, roadmapData);
      && (r.Live? <==> jobId != "" && jobFetch.Ok? && !roadmapFetch.Threw?)
      && (jobId != "" && jobFetch.Ok? && roadmapFetch.NotOk? ==>
            r.view.matchValue == Normalise(OrElse(jobFetch.value.matchScore, jobFetch.value.matchField)))
  {
    if jobId != "" && jobFetch.Ok? && roadmapFetch.NotOk? {
      RefusedRoadmapShowsJobScore(jobFetch.value);
    }
  }
}
