/** The roadmap routes: the default roadmap generated for a job from a table
    of templates, the score the job view recomputes for a user, and the
    roadmap store keyed by job title with its lookup-or-create (`GET
    /job/:jobId`) and upsert (`POST /`). */
module RoadmapRoutes {
  import opened Wrappers
  import opened Strings
  import opened Models
  import opened Scoring
  import opened Sorting
  import opened Ranking
  import opened JobRoutes

  // ------------------------------------------------------------------ icons

  // The icons are opaque emoji constants.
  const GradCapIcon := "\U{1F393}"
  const ScrollIcon := "\U{1F4DC}"
  const MemoIcon := "\U{1F4DD}"
  const TeacherIcon := "\U{1F468}\U{200D}\U{1F3EB}"
  const HospitalIcon := "\U{1F3E5}"
  const ClipboardIcon := "\U{1F4CB}"
  const PillIcon := "\U{1F48A}"
  const MoneyBagIcon := "\U{1F4B0}"
  const BankIcon := "\U{1F3E6}"
  const RiceIcon := "\U{1F33E}"
  const TractorIcon := "\U{1F69C}"
  const WrenchIcon := "\U{1F527}"
  const GearIcon := "\U{2699}\U{FE0F}"
  const ToolsIcon := "\U{1F6E0}\U{FE0F}"
  const BooksIcon := "\U{1F4DA}"
  const RocketIcon := "\U{1F680}"
  const BoltIcon := "\U{26A1}"
  const BriefcaseIcon := "\U{1F4BC}"
  const TrophyIcon := "\U{1F3C6}"
  const OpenBookIcon := "\U{1F4D6}"
  const TargetIcon := "\U{1F3AF}"
  const SpeechIcon := "\U{1F4AC}"
  const NumbersIcon := "\U{1F522}"
  const LaptopIcon := "\U{1F4BB}"
  const PeopleIcon := "\U{1F465}"
  const PinIcon := "\U{1F4CC}"
  const DollarIcon := "\U{1F4B5}"
  const LocationPinIcon := "\U{1F4CD}"
  const TimerIcon := "\U{23F1}\U{FE0F}"
  const RupeeSign := "\U{20B9}"

  // -------------------------------------------------------------- templates

  /** The nine roadmap templates of the generator. */
  datatype Template =
    | TeachingPlan | HealthPlan | BankingPlan | AgriculturePlan | TechnicalPlan | GenericRuralPlan
    | DegreePlan | SkillPlan | DefaultPlan

  /** `job.tags?.some(t => t.includes(w1) || t.includes(w2) ...)`: case-sensitive. */
  predicate SomeTagIncludes(tags: seq<string>, words: seq<string>) {
    exists i, k :: 0 <= i < |tags| && 0 <= k < |words| && Contains(tags[i], words[k])
  }

  /** The rural tag groups, tried in this order. */
  const RuralGroups: seq<(Template, seq<string>)> := [
    (TeachingPlan, ["Teaching", "Education"]),
    (HealthPlan, ["Healthcare", "Health"]),
    (BankingPlan, ["Banking", "Bank"]),
    (AgriculturePlan, ["Agriculture", "Extension"]),
    (TechnicalPlan, ["Technical", "Electrical", "Mechanical"])]

  /** The rural jobs' dispatch on tag substrings, tried in order. */
  function RuralTemplate(tags: seq<string>): Template {
    if SomeTagIncludes(tags, ["Teaching", "Education"]) then TeachingPlan
    else if SomeTagIncludes(tags, ["Healthcare", "Health"]) then HealthPlan
    else if SomeTagIncludes(tags, ["Banking", "Bank"]) then BankingPlan
    else if SomeTagIncludes(tags, ["Agriculture", "Extension"]) then AgriculturePlan
    else if SomeTagIncludes(tags, ["Technical", "Electrical", "Mechanical"]) then TechnicalPlan
    else GenericRuralPlan
  }

  /** The generator's dispatch on category and, for rural jobs, on tag substrings. */
  function TemplateFor(job: Job): (t: Template)
  {
    match job.category
    case Rural => RuralTemplate(job.tags)
    case DegreeBased => DegreePlan
    case SkillBased => SkillPlan
    case _ => DefaultPlan
  }

  /** A rural job gets the first group of the table one of whose words some
      tag includes, and the generic rural template when there is none; the
      degree and skill categories have their own template, and every other
      category the default one. */
  lemma TemplateDispatch(job: Job)
    ensures job.category == Rural ==>
      forall g :: 0 <= g < |RuralGroups| ==>
        (TemplateFor(job) == RuralGroups[g].0 <==>
          SomeTagIncludes(job.tags, RuralGroups[g].1)
          && forall h :: 0 <= h < g ==> !SomeTagIncludes(job.tags, RuralGroups[h].1))
    ensures job.category == Rural ==>
      (TemplateFor(job) == GenericRuralPlan <==>
        forall g :: 0 <= g < |RuralGroups| ==> !SomeTagIncludes(job.tags, RuralGroups[g].1))
    ensures job.category == DegreeBased <==> TemplateFor(job) == DegreePlan
    ensures job.category == SkillBased <==> TemplateFor(job) == SkillPlan
    ensures job.category in {CommunicationArts, Urban} <==> TemplateFor(job) == DefaultPlan
  {
    if job.category == Rural {
      RuralDispatch(job.tags);
    }
  }

  /** The first rural tag group with a match picks the template. */
  lemma RuralDispatch(tags: seq<string>)
    ensures forall g :: 0 <= g < |RuralGroups| ==>
      (RuralTemplate(tags) == RuralGroups[g].0 <==>
        SomeTagIncludes(tags, RuralGroups[g].1)
        && forall h :: 0 <= h < g ==> !SomeTagIncludes(tags, RuralGroups[h].1))
    ensures RuralTemplate(tags) == GenericRuralPlan <==>
      forall g :: 0 <= g < |RuralGroups| ==> !SomeTagIncludes(tags, RuralGroups[g].1)
  {
    var hit := seq(5, g requires 0 <= g < 5 => SomeTagIncludes(tags, RuralGroups[g].1));
    assert hit[0] == SomeTagIncludes(tags, ["Teaching", "Education"]);
    assert hit[1] == SomeTagIncludes(tags, ["Healthcare", "Health"]);
    assert hit[2] == SomeTagIncludes(tags, ["Banking", "Bank"]);
    assert hit[3] == SomeTagIncludes(tags, ["Agriculture", "Extension"]);
    assert hit[4] == SomeTagIncludes(tags, ["Technical", "Electrical", "Mechanical"]);
    forall g | 0 <= g < |RuralGroups|
      ensures RuralTemplate(tags) == RuralGroups[g].0 <==>
        SomeTagIncludes(tags, RuralGroups[g].1)
        && forall h :: 0 <= h < g ==> !SomeTagIncludes(tags, RuralGroups[h].1)
    {
      assert forall h :: 0 <= h < g ==> hit[h] == SomeTagIncludes(tags, RuralGroups[h].1);
    }
  }

  // ------------------------------------------------------------------ steps

  function PendingStep(title: string, subtitle: string, icon: string, order: int): Step {
    Step(title, subtitle, Pending, icon, order)
  }

  /** The steps of each template; the last step of the generic rural,
      degree, skill and default templates is subtitled with the job title. */
  function StepsFor(t: Template, jobTitle: string): (r: seq<Step>)
  {
    match t
    case TeachingPlan => [
      PendingStep("Complete 12th", "Any Stream", GradCapIcon, 1),
      PendingStep("Get D.Ed/B.Ed", "Teaching Certificate", ScrollIcon, 2),
      PendingStep("Apply for Government Jobs", "Teacher Recruitment", MemoIcon, 3),
      PendingStep("Start Teaching", "Primary/Secondary School", TeacherIcon, 4)]
    case HealthPlan => [
      PendingStep("Complete 10th", "Basic Education", GradCapIcon, 1),
      PendingStep("Get ANM/ASHA Training", "Health Worker Certificate", HospitalIcon, 2),
      PendingStep("Apply for Health Centers", "Primary Health Center", ClipboardIcon, 3),
      PendingStep("Start Health Services", "Community Health", PillIcon, 4)]
    case BankingPlan => [
      PendingStep("Complete 12th", "Any Stream", GradCapIcon, 1),
      PendingStep("Learn Banking Basics", "Financial Literacy", MoneyBagIcon, 2),
      PendingStep("Apply for Bank Exams", "RRB/Clerk Exams", MemoIcon, 3),
      PendingStep("Start Banking Career", "Rural Bank Clerk", BankIcon, 4)]
    case AgriculturePlan => [
      PendingStep("Complete 12th", "Science/Agriculture", GradCapIcon, 1),
      PendingStep("Get Agriculture Diploma", "Agricultural Extension", RiceIcon, 2),
      PendingStep("Apply for Government Jobs", "Agriculture Department", ClipboardIcon, 3),
      PendingStep("Start Field Work", "Farmer Support", TractorIcon, 4)]
    case TechnicalPlan => [
      PendingStep("Complete 10th", "Basic Education", GradCapIcon, 1),
      PendingStep("Get ITI Certificate", "Technical Training", WrenchIcon, 2),
      PendingStep("Gain Practical Experience", "Apprenticeship", GearIcon, 3),
      PendingStep("Start Technical Career", "Electrician/Mechanic", ToolsIcon, 4)]
    case GenericRuralPlan => [
      PendingStep("Complete Basic Education", "10th/12th Pass", GradCapIcon, 1),
      PendingStep("Get Required Training", "Skill Development", BooksIcon, 2),
      PendingStep("Apply for Positions", "Job Applications", MemoIcon, 3),
      PendingStep("Start Career", jobTitle, RocketIcon, 4)]
    case DegreePlan => [
      PendingStep("Complete 12th (Science)", "PCM/PCB Subjects", GradCapIcon, 1),
      PendingStep("Get Bachelor Degree", "B.Tech/B.Sc/B.Com", BooksIcon, 2),
      PendingStep("Build Skills", "Technical/Professional", BoltIcon, 3),
      PendingStep("Get Internship", "Practical Experience", BriefcaseIcon, 4),
      PendingStep("Start Full-Time Career", jobTitle, TrophyIcon, 5)]
    case SkillPlan => [
      PendingStep("Learn Fundamentals", "Basic Skills", OpenBookIcon, 1),
      PendingStep("Practice & Build Projects", "Hands-on Experience", ToolsIcon, 2),
      PendingStep("Get Certifications", "Skill Validation", ScrollIcon, 3),
      PendingStep("Start Career", jobTitle, RocketIcon, 4)]
    case DefaultPlan => [
      PendingStep("Get Started", "Begin your journey", RocketIcon, 1),
      PendingStep("Learn Skills", "Build Expertise", BooksIcon, 2),
      PendingStep("Gain Experience", "Practical Work", BriefcaseIcon, 3),
      PendingStep("Achieve Career", jobTitle, TrophyIcon, 4)]
  }

  /** Every step is Pending and numbered 1..n without gaps, n = 5 for the
      degree template and 4 for every other; the generic rural, degree,
      skill and default templates end on a step subtitled with the job title. */
  lemma StepsNumberedAndPending(t: Template, jobTitle: string)
    ensures |StepsFor(t, jobTitle)| == if t == DegreePlan then 5 else 4
    ensures forall k :: 0 <= k < |StepsFor(t, jobTitle)| ==>
      StepsFor(t, jobTitle)[k].status == Pending && StepsFor(t, jobTitle)[k].order == k + 1
    ensures t in {GenericRuralPlan, DegreePlan, SkillPlan, DefaultPlan} ==>
      StepsFor(t, jobTitle)[|StepsFor(t, jobTitle)| - 1].subtitle == jobTitle
  {
    var s := StepsFor(t, jobTitle);
    match t
    case DegreePlan => FiveNumbered(s);
    case TeachingPlan => FourNumbered(s);
    case HealthPlan => FourNumbered(s);
    case BankingPlan => FourNumbered(s);
    case AgriculturePlan => FourNumbered(s);
    case TechnicalPlan => FourNumbered(s);
    case GenericRuralPlan => FourNumbered(s);
    case SkillPlan => FourNumbered(s);
    case DefaultPlan => FourNumbered(s);
  }

  lemma FourNumbered(s: seq<Step>)
    requires |s| == 4 && s[0].order == 1 && s[1].order == 2 && s[2].order == 3 && s[3].order == 4
    requires s[0].status == Pending && s[1].status == Pending && s[2].status == Pending && s[3].status == Pending
    ensures forall k :: 0 <= k < |s| ==> s[k].status == Pending && s[k].order == k + 1
  {
  }

  lemma FiveNumbered(s: seq<Step>)
    requires |s| == 5 && s[0].order == 1 && s[1].order == 2 && s[2].order == 3 && s[3].order == 4 && s[4].order == 5
    requires s[0].status == Pending && s[1].status == Pending && s[2].status == Pending && s[3].status == Pending
    requires s[4].status == Pending
    ensures forall k :: 0 <= k < |s| ==> s[k].status == Pending && s[k].order == k + 1
  {
  }

  // ----------------------------------------------------------------- skills

  /** How a template turns the job's skills into roadmap skills. */
  datatype SkillStyle = SkillStyle(desc: string, icon: string, color: string, bg: string,
                                   base: int, stride: int, graded: bool)

  const RequiredSkillStyle := SkillStyle("Required Skill", PinIcon, "text-blue-600", "bg-blue-50", 30, 20, false)

  /** The level by index: Advanced, Intermediate, Essential for the graded
      (degree) style, always Essential otherwise. */
  function SkillLevel(graded: bool, idx: nat): string {
    if !graded then "Essential"
    else if idx == 0 then "Advanced"
    else if idx == 1 then "Intermediate"
    else "Essential"
  }

  /** `(job.skills || []).slice(0, 3).map((skill, idx) => ...)`. */
  function JobSkills(names: seq<string>, style: SkillStyle): (r: seq<Skill>)
    ensures |r| == if |names| < 3 then |names| else 3
    ensures forall i :: 0 <= i < |r| ==>
      && r[i].name == names[i]
      && r[i].progress == style.base + i * style.stride
      && r[i].level == SkillLevel(style.graded, i)
  {
    var n := if |names| < 3 then |names| else 3;
    seq(n, i requires 0 <= i < n =>
      Skill(names[i], SkillLevel(style.graded, i), style.desc, style.icon, style.color, style.bg,
            style.base + i * style.stride))
  }

  function StyleFor(t: Template): SkillStyle {
    match t
    case TechnicalPlan => SkillStyle("Technical Skill", WrenchIcon, "text-blue-600", "bg-blue-50", 40, 15, false)
    case DegreePlan => SkillStyle("Core Skill", GearIcon, "text-blue-600", "bg-blue-50", 50, 15, true)
    case SkillPlan => SkillStyle("Practical Skill", TargetIcon, "text-green-600", "bg-green-50", 40, 20, false)
    case _ => RequiredSkillStyle
  }

  /** Teaching, health, banking and agriculture have three fixed skills. */
  predicate HasFixedSkills(t: Template) {
    t in {TeachingPlan, HealthPlan, BankingPlan, AgriculturePlan}
  }

  function FixedSkills(t: Template): (r: seq<Skill>)
    requires HasFixedSkills(t)
  {
    match t
    case TeachingPlan => [
      Skill("Teaching", "Essential", "Classroom Management", TeacherIcon, "text-blue-600", "bg-blue-50", 40),
      Skill("Communication", "Essential", "Student Interaction", SpeechIcon, "text-green-600", "bg-green-50", 50),
      Skill("Subject Knowledge", "Essential", "Core Subjects", BooksIcon, "text-purple-600", "bg-purple-50", 45)]
    case HealthPlan => [
      Skill("Basic Medical Knowledge", "Essential", "First Aid & Health", PillIcon, "text-red-600", "bg-red-50", 35),
      Skill("Communication", "Essential", "Patient Care", SpeechIcon, "text-blue-600", "bg-blue-50", 50),
      Skill("Record Keeping", "Essential", "Health Records", MemoIcon, "text-green-600", "bg-green-50", 40)]
    case BankingPlan => [
      Skill("Numerical Ability", "Essential", "Math & Calculations", NumbersIcon, "text-blue-600", "bg-blue-50", 45),
      Skill("Computer Skills", "Essential", "Banking Software", LaptopIcon, "text-green-600", "bg-green-50", 40),
      Skill("Customer Service", "Essential", "Client Interaction", PeopleIcon, "text-purple-600", "bg-purple-50", 50)]
    case AgriculturePlan => [
      Skill("Agricultural Knowledge", "Essential", "Crop & Farming", RiceIcon, "text-green-600", "bg-green-50", 50),
      Skill("Field Work", "Essential", "On-Ground Experience", TractorIcon, "text-orange-600", "bg-orange-50", 40),
      Skill("Communication", "Essential", "Farmer Interaction", SpeechIcon, "text-blue-600", "bg-blue-50", 45)]
  }

  /** The skills a template builds. */
  function TemplateSkills(t: Template, job: Job): seq<Skill> {
    if HasFixedSkills(t) then FixedSkills(t) else JobSkills(job.skills, StyleFor(t))
  }

  /** `skills.length > 0 ? skills : <the first three job skills, required style>`. */
  function RoadmapSkills(t: Template, job: Job): seq<Skill> {
    var skills := TemplateSkills(t, job);
    if |skills| > 0 then skills else JobSkills(job.skills, RequiredSkillStyle)
  }

  /** The fallback skill list never changes anything: it is used only when
      the template built no skills, and then the job has none either. */
  lemma SkillFallbackIsTemplateSkills(t: Template, job: Job)
    ensures RoadmapSkills(t, job) == TemplateSkills(t, job)
  {
    if !HasFixedSkills(t) && |TemplateSkills(t, job)| == 0 {
      assert job.skills == [];
    }
  }

  /** Fixed-skill templates give three Essential skills; the others give the
      first min(3, n) job skills in order, with progress 40 + 15i, 50 + 15i,
      40 + 20i or 30 + 20i, always within [30, 80]; degree levels are
      Advanced, Intermediate, Essential by index. */
  lemma RoadmapSkillsShape(t: Template, job: Job)
    ensures var s := RoadmapSkills(t, job);
      && (HasFixedSkills(t) ==> |s| == 3 && forall i :: 0 <= i < 3 ==> s[i].level == "Essential")
      && (!HasFixedSkills(t) ==>
            && |s| == (if |job.skills| < 3 then |job.skills| else 3)
            && forall i :: 0 <= i < |s| ==>
                 && s[i].name == job.skills[i]
                 && 30 <= s[i].progress <= 80
                 && s[i].level == (if t == DegreePlan && i == 0 then "Advanced"
                                   else if t == DegreePlan && i == 1 then "Intermediate"
                                   else "Essential"))
  {
    SkillFallbackIsTemplateSkills(t, job);
    if HasFixedSkills(t) {
      FixedSkillsEssential(t);
    } else {
      StyledSkillsShape(t, job.skills);
    }
  }

  lemma FixedSkillsEssential(t: Template)
    requires HasFixedSkills(t)
    ensures |FixedSkills(t)| == 3 && forall i :: 0 <= i < 3 ==> FixedSkills(t)[i].level == "Essential"
  {
  }

  lemma StyledSkillsShape(t: Template, names: seq<string>)
    requires !HasFixedSkills(t)
    ensures var s := JobSkills(names, StyleFor(t));
      forall i :: 0 <= i < |s| ==>
        && 30 <= s[i].progress <= 80
        && s[i].level == (if t == DegreePlan && i == 0 then "Advanced"
                          else if t == DegreePlan && i == 1 then "Intermediate"
                          else "Essential")
  {
  }

  // ------------------------------------------------------------ the roadmap

  const DefaultCourse := Course("Career Fundamentals", "Getting Started", "Career Coach", "Mentor", "4 weeks", "Beginner")
  const TeachingCourse := Course("Teaching Fundamentals", "Learn Classroom Management", "Education Expert",
                                 "Senior Teacher", "6 weeks", "Beginner")

  /** `job.salaryRange || "₹<min || 0>L - ₹<max || 0>L"`; the nested salary
      object always exists, so the fixed "₹2L - ₹5L" is never reached. */
  function SalaryStatText(job: Job): (r: string)
    ensures job.salaryRange != "" ==> r == job.salaryRange
    ensures job.salaryRange == "" ==> StartsWith(r, RupeeSign)
  {
    if job.salaryRange != "" then job.salaryRange
    else
      var lo := if job.salary.min.Some? then job.salary.min.value else 0;
      var hi := if job.salary.max.Some? then job.salary.max.value else 0;
      RupeeSign + IntToString(lo) + "L - " + RupeeSign + IntToString(hi) + "L"
  }

  function TagChips(tags: seq<string>): (r: seq<TagChip>)
    ensures |r| == |tags|
    ensures forall i :: 0 <= i < |r| ==> r[i].text == tags[i]
  {
    seq(|tags|, i requires 0 <= i < |tags| => TagChip(tags[i], PinIcon))
  }

  /** `createDefaultRoadmap(job)` before it is stored. */
  /** The generated roadmap's four stats. */
  function DefaultStats(job: Job): (r: seq<Stat>)
    ensures |r| == 4
    ensures r[0].caption == "AVG SALARY" && r[1].caption == "LOCATION"
    ensures r[2].caption == "TYPE" && r[3].caption == "CATEGORY"
    ensures r[1].value == job.location && r[3].value == job.category.Name()
  {
    [Stat("AVG SALARY", SalaryStatText(job), DollarIcon, false),
     Stat("LOCATION", job.location, LocationPinIcon, false),
     Stat("TYPE", job.jobType.Name(), TimerIcon, false),
     Stat("CATEGORY", job.category.Name(), BriefcaseIcon, false)]
  }

  function DefaultRoadmap(job: Job): (r: Roadmap)
  {
    var t := TemplateFor(job);
    Roadmap(
      job.title,
      job.id,
      if job.description != "" then job.description else "Your personalized roadmap to success.",
      TagChips(job.tags),
      if job.matchScore != 0.0 then job.matchScore else 85.0,
      DefaultStats(job),
      StepsFor(t, job.title),
      RoadmapSkills(t, job),
      if t == TeachingPlan then TeachingCourse else DefaultCourse)
  }

  /** The generated roadmap: titled and linked to the job; match is the
      job's stored score or 85; the tags become chips with the same labels;
      exactly four stats, AVG SALARY, LOCATION, TYPE, CATEGORY in that order;
      the template's steps and skills; the default course except for the
      teaching template. */
  lemma DefaultRoadmapFields(job: Job)
    ensures var r := DefaultRoadmap(job);
      && r.jobTitle == job.title && r.jobId == job.id
      && r.matchValue == (if job.matchScore != 0.0 then job.matchScore else 85.0)
      && |r.tags| == |job.tags| && (forall i :: 0 <= i < |r.tags| ==> r.tags[i].text == job.tags[i])
      && |r.stats| == 4
      && r.stats[0].caption == "AVG SALARY" && r.stats[1].caption == "LOCATION"
      && r.stats[2].caption == "TYPE" && r.stats[3].caption == "CATEGORY"
      && r.stats[1].value == job.location && r.stats[3].value == job.category.Name()
      && r.steps == StepsFor(TemplateFor(job), job.title)
      && r.skills == TemplateSkills(TemplateFor(job), job)
      && (r.course == TeachingCourse <==> TemplateFor(job) == TeachingPlan)
  {
    SkillFallbackIsTemplateSkills(TemplateFor(job), job);
  }

  // --------------------------------------------------- the job view's score

  /** The match the roadmap view computes for a user, or `None` when it
      computes none: no e-mail, an unknown user, or a job outside the list
      whose fallback neither matched a career nor scored above 0. A listed
      job gets its positional match; an unlisted one the fallback's
      chatbot score or its unrounded 80 + s / 150 * 15 kept in [80, 95]. */
  function RoadmapScore(email: string, user: Option<User>, job: Job, allJobs: seq<Job>): (r: Option<real>)
  {
    if email == "" || user.None? then None
    else
      var u := user.value;
      var pos := PositionOf(u, allJobs, job.id);
      if pos.Some? then Some(Positional(Ranked(u, allJobs), pos.value) as real)
      else FallbackMatch(FallbackScore(u, job))
  }

  /** The match the view derives from the fallback: the matched career's
      chatbot score, else the points scaled into [80, 95], else none. */
  function FallbackMatch(f: Fallback): (r: Option<real>)
    ensures r.None? <==> !(f.recommended && f.chatbotScore.Some?) && f.score <= 0
    ensures f.recommended && f.chatbotScore.Some? ==> r == Some(f.chatbotScore.value as real)
    ensures !(f.recommended && f.chatbotScore.Some?) && f.score > 0 ==> 80.0 <= r.value <= 95.0
  {
    if f.recommended && f.chatbotScore.Some? then Some(f.chatbotScore.value as real)
    else if f.score > 0 then Some(ClampReal(80.0, 95.0, 80.0 + (f.score as real / 150.0) * 15.0))
    else None
  }

  /** The roadmap view and the single-job view agree: whenever the roadmap
      view computes a match the job view shows the same one, and every
      computed match lies in [80, 95]. */
  lemma RoadmapScoreAgreesWithDetail(email: string, user: Option<User>, job: Job, allJobs: seq<Job>)
    requires RoadmapScore(email, user, job, allJobs).Some?
    ensures var d := JobDetail(Some(job), email, user, allJobs);
      && d.Success? && d.value.Priced?
      && d.value.matchValue == RoadmapScore(email, user, job, allJobs).value
      && 80.0 <= d.value.matchValue <= 95.0
  {
    var u := user.value;
    var names := CareerNames(u.chatbot.topCareers);
    FallbackCareersChatbotScoreInRange(MatchFlags(names, job), |names|);
    DetailMatchInRange(Some(job), email, user, allJobs);
  }

  /** When the roadmap view computes no match for a known user, the job view
      shows 85 for the same job: the stored match and the job view's default
      can disagree. */
  lemma NoRoadmapScoreIsDetailDefault(email: string, u: User, job: Job, allJobs: seq<Job>)
    requires email != ""
    requires RoadmapScore(email, Some(u), job, allJobs).None?
    ensures JobDetail(Some(job), email, Some(u), allJobs) == Success(Priced(job, 85.0, false))
  {
    var names := CareerNames(u.chatbot.topCareers);
    FallbackCareersChatbotScoreInRange(MatchFlags(names, job), |names|);
  }

  /** The view's score as the handler computes it: the jobs are scored in
      place and sorted, the job is looked up by id in `[...recommended,
      ...others]`, and the fallback runs when it is absent. */
  method ComputeRoadmapScore(email: string, user: Option<User>, job: Job, allJobs: seq<Job>) returns (r: Option<real>)
    ensures r == RoadmapScore(email, user, job, allJobs)
  {
    if email == "" || user.None? {
      return None;
    }
    var u := user.value;
    var scored := ScoreList(u, allJobs);
    var sorted := Sort(scored, Precedes);
    var pos := FindById(Recs(sorted) + Others(sorted), job.id);
    assert pos == PositionOf(u, allJobs, job.id);
    if pos.Some? {
      r := Some(Positional(sorted, pos.value) as real);
    } else {
      var f := FallbackScoring(u, job);
      r := FallbackMatch(f);
    }
  }

  /** The response's match: a computed score overwrites the stored one. */
  function WithScore(rm: Roadmap, score: Option<real>): (r: Roadmap)
    ensures score.None? ==> r == rm
    ensures score.Some? ==> r.matchValue == score.value && r.(matchValue := rm.matchValue) == rm
  {
    if score.Some? then rm.(matchValue := score.value) else rm
  }

  // -------------------------------------------------------------- the store

  /** The fields of a POST body besides `jobTitle`; `None` where absent. */
  datatype RoadmapPatch = RoadmapPatch(
    jobId: Option<string>,
    description: Option<string>,
    tags: Option<seq<TagChip>>,
    matchValue: Option<real>,
    stats: Option<seq<Stat>>,
    steps: Option<seq<Step>>,
    skills: Option<seq<Skill>>,
    course: Option<Course>)

  /** `Object.assign(roadmap, roadmapData)`: the fields present replace the
      stored ones, the title is kept. */
  function Patched(rm: Roadmap, p: RoadmapPatch): (r: Roadmap)
    ensures r.jobTitle == rm.jobTitle
    ensures p == RoadmapPatch(None, None, None, None, None, None, None, None) ==> r == rm
  {
    Roadmap(
      rm.jobTitle,
      if p.jobId.Some? then p.jobId.value else rm.jobId,
      if p.description.Some? then p.description.value else rm.description,
      if p.tags.Some? then p.tags.value else rm.tags,
      if p.matchValue.Some? then p.matchValue.value else rm.matchValue,
      if p.stats.Some? then p.stats.value else rm.stats,
      if p.steps.Some? then p.steps.value else rm.steps,
      if p.skills.Some? then p.skills.value else rm.skills,
      if p.course.Some? then p.course.value else rm.course)
  }

  /** Applying the same patch twice is applying it once. */
  lemma PatchIdempotent(rm: Roadmap, p: RoadmapPatch)
    ensures Patched(Patched(rm, p), p) == Patched(rm, p)
  {
  }

  /** The roadmap collection, keyed by its unique, required `jobTitle`. */
  class RoadmapStore {
    var byTitle: map<string, Roadmap>

    /** Every stored roadmap sits under its own, non-empty title. */
    ghost predicate Valid()
      reads this
    {
      forall t :: t in byTitle ==> t != "" && byTitle[t].jobTitle == t
    }

    constructor ()
      ensures Valid() && byTitle == map[]
    {
      byTitle := map[];
    }

    /** `GET /job/:jobId?email=`: 404 for an unknown job; otherwise the
        roadmap stored under the job's title, created from the template
        only when absent (an empty title fails validation: 500), returned
        with the computed score as its match; the computed score is never
        saved. */
    method ViewForJob(found: Option<Job>, email: string, user: Option<User>, allJobs: seq<Job>)
      returns (r: Result<Roadmap, Status>)
      requires Valid()
      modifies this
      ensures Valid()
      ensures found.None? ==> r == Failure(NotFound) && byTitle == old(byTitle)
      ensures found.Some? && found.value.title in old(byTitle) ==>
        && byTitle == old(byTitle)
        && r == Success(WithScore(old(byTitle)[found.value.title], RoadmapScore(email, user, found.value, allJobs)))
      ensures found.Some? && found.value.title !in old(byTitle) && found.value.title != "" ==>
        && byTitle == old(byTitle)[found.value.title := DefaultRoadmap(found.value)]
        && r == Success(WithScore(DefaultRoadmap(found.value), RoadmapScore(email, user, found.value, allJobs)))
      ensures found.Some? && found.value.title == "" ==> r == Failure(ServerError) && byTitle == old(byTitle)
      ensures r.Success? ==> found.Some? && r.value.jobTitle == found.value.title
    {
      if found.None? {
        return Failure(NotFound);
      }
      var job := found.value;
      var score := ComputeRoadmapScore(email, user, job, allJobs);
      var rm: Roadmap;
      if job.title in byTitle {
        rm := byTitle[job.title];
      } else {
        if job.title == "" {
          return Failure(ServerError);
        }
        rm := DefaultRoadmap(job);
        byTitle := byTitle[job.title := rm];
      }
      r := Success(WithScore(rm, score));
    }

    /** `POST /`: an existing roadmap with the title is patched in place,
        otherwise one is created from the title and the patch. A missing
        title is sent in the query as null, which only a roadmap without a
        title would match; the title is required, so none does and the
        creation fails validation (500), as it does for an empty title. */
    method Upsert(jobTitle: Option<string>, patch: RoadmapPatch) returns (r: Result<Roadmap, Status>)
      requires Valid()
      modifies this
      ensures Valid()
      ensures jobTitle.Some? && jobTitle.value in old(byTitle) ==>
        && byTitle == old(byTitle)[jobTitle.value := Patched(old(byTitle)[jobTitle.value], patch)]
        && r == Success(byTitle[jobTitle.value])
      ensures jobTitle.Some? && jobTitle.value !in old(byTitle) && jobTitle.value != "" ==>
        && byTitle == old(byTitle)[jobTitle.value := Patched(NewRoadmap(jobTitle.value).value, patch)]
        && r == Success(byTitle[jobTitle.value])
      ensures jobTitle.None? || jobTitle == Some("") ==> r == Failure(ServerError) && byTitle == old(byTitle)
      ensures r.Success? ==> jobTitle.Some? && r.value.jobTitle == jobTitle.value
    {
      if jobTitle.None? {
        return Failure(ServerError);
      }
      var key := jobTitle.value;
      if key in byTitle {
        byTitle := byTitle[key := Patched(byTitle[key], patch)];
      } else {
        if key == "" {
          return Failure(ServerError);
        }
        byTitle := byTitle[key := Patched(NewRoadmap(key).value, patch)];
      }
      r := Success(byTitle[key]);
    }
  }
}
