/** The stored records: jobs, roadmaps and user profiles, with the enumerations,
    required fields and defaults their schemas declare. A text field the schema
    leaves unset is the empty string; an optional section is `None`. */
module Models {
  import opened Wrappers

  // ---------------------------------------------------------------- jobs

  datatype Category = DegreeBased | SkillBased | CommunicationArts | Rural | Urban {
    function Name(): string {
      match this
      case DegreeBased => "Degree-Based Career"
      case SkillBased => "Skill-Based Career"
      case CommunicationArts => "Communication & Arts"
      case Rural => "Rural"
      case Urban => "Urban"
    }
  }

  /** The category enum validator: only the five names are accepted. */
  function ParseCategory(s: string): (r: Option<Category>)
    ensures r.Some? ==> r.value.Name() == s
  {
    if s == "Degree-Based Career" then Some(DegreeBased)
    else if s == "Skill-Based Career" then Some(SkillBased)
    else if s == "Communication & Arts" then Some(CommunicationArts)
    else if s == "Rural" then Some(Rural)
    else if s == "Urban" then Some(Urban)
    else None
  }

  lemma ParseCategoryName(c: Category)
    ensures ParseCategory(c.Name()) == Some(c)
  {
  }

  datatype JobType = FullTime | PartTime | Contract | Internship | Freelance {
    function Name(): string {
      match this
      case FullTime => "Full-time"
      case PartTime => "Part-time"
      case Contract => "Contract"
      case Internship => "Internship"
      case Freelance => "Freelance"
    }
  }

  function ParseJobType(s: string): (r: Option<JobType>)
    ensures r.Some? ==> r.value.Name() == s
  {
    if s == "Full-time" then Some(FullTime)
    else if s == "Part-time" then Some(PartTime)
    else if s == "Contract" then Some(Contract)
    else if s == "Internship" then Some(Internship)
    else if s == "Freelance" then Some(Freelance)
    else None
  }

  lemma ParseJobTypeName(t: JobType)
    ensures ParseJobType(t.Name()) == Some(t)
  {
  }

  datatype Salary = Salary(min: Option<int>, max: Option<int>, currency: string)

  datatype Job = Job(
    id: string,
    title: string,
    company: string,
    location: string,
    district: string,
    state: string,
    jobType: JobType,
    salary: Salary,
    salaryRange: string,
    category: Category,
    tags: seq<string>,
    description: string,
    requirements: seq<string>,
    skills: seq<string>,
    matchScore: real,
    isRural: bool)

  /** The fields a job document is created from; absent text is "". */
  datatype JobInput = JobInput(
    title: string,
    company: string,
    location: string,
    district: string,
    state: string,
    jobType: string,
    salaryMin: Option<int>,
    salaryMax: Option<int>,
    currency: Option<string>,
    salaryRange: string,
    category: string,
    tags: seq<string>,
    description: string,
    requirements: seq<string>,
    skills: seq<string>,
    matchScore: Option<real>,
    isRural: Option<bool>)

  datatype ValidationError = MissingField(field: string) | NotInEnum(field: string)

  /** Creating a job document: required fields must be non-empty, the two
      enumerations must hold one of their names, and the defaults
      (currency INR, matchScore 0, isRural false) fill what is absent. */
  function CreateJob(id: string, input: JobInput): (r: Result<Job, ValidationError>)
    ensures r.Success? <==>
      input.title != "" && input.company != "" && input.location != ""
      && ParseJobType(input.jobType).Some? && ParseCategory(input.category).Some?
    ensures r.Success? ==>
      var j := r.value;
      j.id == id && j.title == input.title && j.company == input.company
      && j.location == input.location
      && j.jobType.Name() == input.jobType && j.category.Name() == input.category
      && j.tags == input.tags && j.requirements == input.requirements && j.skills == input.skills
      && j.salary.currency == (if input.currency.Some? then input.currency.value else "INR")
      && j.matchScore == (if input.matchScore.Some? then input.matchScore.value else 0.0)
      && j.isRural == (input.isRural.Some? && input.isRural.value)
  {
    if input.title == "" then Failure(MissingField("title"))
    else if input.company == "" then Failure(MissingField("company"))
    else if input.location == "" then Failure(MissingField("location"))
    else if input.jobType == "" then Failure(MissingField("type"))
    else if ParseJobType(input.jobType).None? then Failure(NotInEnum("type"))
    else if input.category == "" then Failure(MissingField("category"))
    else if ParseCategory(input.category).None? then Failure(NotInEnum("category"))
    else
      Success(Job(
        id, input.title, input.company, input.location, input.district, input.state,
        ParseJobType(input.jobType).value,
        Salary(input.salaryMin, input.salaryMax,
               if input.currency.Some? then input.currency.value else "INR"),
        input.salaryRange,
        ParseCategory(input.category).value,
        input.tags, input.description, input.requirements, input.skills,
        if input.matchScore.Some? then input.matchScore.value else 0.0,
        input.isRural.Some? && input.isRural.value))
  }

  // ---------------------------------------------------------------- roadmaps

  datatype StepStatus = Completed | InProgress | Pending {
    function Name(): string {
      match this
      case Completed => "Completed"
      case InProgress => "In Progress"
      case Pending => "Pending"
    }
  }

  /** The step status enum with its default: absent means Pending, anything
      outside the three names is refused. */
  function ParseStepStatus(s: Option<string>): (r: Option<StepStatus>)
    ensures s.None? ==> r == Some(Pending)
    ensures s.Some? && r.Some? ==> r.value.Name() == s.value
    ensures s.Some? ==> (r.Some? <==> s.value in {"Completed", "In Progress", "Pending"})
  {
    match s
    case None => Some(Pending)
    case Some(name) =>
      if name == "Completed" then Some(Completed)
      else if name == "In Progress" then Some(InProgress)
      else if name == "Pending" then Some(Pending)
      else None
  }

  datatype Step = Step(title: string, subtitle: string, status: StepStatus, icon: string, order: int)

  /** Skill progress is documented as 0-100 but the schema does not enforce it. */
  datatype Skill = Skill(name: string, level: string, desc: string, icon: string,
                         color: string, bg: string, progress: int)

  datatype Course = Course(title: string, desc: string, mentor: string, role: string,
                           duration: string, level: string)

  datatype Stat = Stat(caption: string, value: string, icon: string, highlight: bool)

  datatype TagChip = TagChip(text: string, icon: string)

  datatype Roadmap = Roadmap(
    jobTitle: string,
    jobId: string,
    description: string,
    tags: seq<TagChip>,
    matchValue: real,
    stats: seq<Stat>,
    steps: seq<Step>,
    skills: seq<Skill>,
    course: Course)

  const EmptyCourse := Course("", "", "", "", "", "")

  /** A roadmap document created from only its title: match defaults to 0,
      the lists to empty. */
  function NewRoadmap(jobTitle: string): (r: Result<Roadmap, ValidationError>)
    ensures r.Success? <==> jobTitle != ""
    ensures r.Success? ==>
      r.value.jobTitle == jobTitle && r.value.matchValue == 0.0
      && r.value.steps == [] && r.value.skills == [] && r.value.tags == [] && r.value.stats == []
  {
    if jobTitle == "" then Failure(MissingField("jobTitle"))
    else Success(Roadmap(jobTitle, "", "", [], 0.0, [], [], [], EmptyCourse))
  }

  /** A skill whose progress lies outside 0-100 is still accepted. */
  lemma ProgressNotEnforced()
    ensures var r := NewRoadmap("Nurse");
      r.Success? && r.value.(skills := [Skill("Care", "", "", "", "", "", 150)]).skills[0].progress > 100
  {
  }

  // ---------------------------------------------------------------- users

  datatype Location = Location(locality: string, district: string, state: string)

  datatype Academic = Academic(
    board10: string,
    year10: string,
    percentage10: string,
    is12Completed: Option<bool>,
    stream12: string,
    percentage12: string,
    subjects12: map<string, bool>)

  datatype Graduation = Graduation(
    isCompleted: Option<bool>,
    field: string,
    college: string,
    year: string,
    cgpa: string)

  /** One entry of the subject-to-score dictionary, kept in insertion order. */
  datatype SubjectScore = SubjectScore(subject: string, score: int)

  datatype Interests = Interests(
    selectedInterests: seq<string>,
    subjectLikes: seq<SubjectScore>,
    strengths: seq<string>,
    workStyle: string,
    otherInterests: string)

  /** A career's `risk` as received: absent, `null`, or a number documented
      as 0 Low, 1 Medium, 2 High. */
  datatype Risk = NoRisk | NullRisk | RiskLevel(level: int)

  datatype Career = Career(name: string, salary: string, risk: Risk)

  /** `['Low', 'Medium', 'High'][risk] || 'Medium'`: a risk outside the
      documented 0..2 reads as Medium. */
  function RiskLabel(risk: int): (r: string)
    ensures r == "Low" <==> risk == 0
    ensures r == "High" <==> risk == 2
    ensures r == "Medium" <==> risk != 0 && risk != 2
  {
    if 0 <= risk < 3 then ["Low", "Medium", "High"][risk] else "Medium"
  }

  datatype Conversation = Conversation(question: string, questionId: string, answer: string)

  datatype ChatbotData = ChatbotData(
    careerPath: string,
    summary: string,
    sessionId: string,
    insights: seq<string>,
    topCareers: seq<Career>,
    conversations: seq<Conversation>)

  const EmptyChatbotData := ChatbotData("", "", "", [], [], [])

  datatype User = User(
    email: string,
    clerkId: string,
    location: Option<Location>,
    academic: Option<Academic>,
    graduation: Option<Graduation>,
    interests: Option<Interests>,
    chatbot: ChatbotData)

  /** The score stored under a subject name, if any (the first entry wins). */
  function ScoreOf(scores: seq<SubjectScore>, subject: string): (r: Option<int>)
    ensures r.Some? <==> exists k :: 0 <= k < |scores| && scores[k].subject == subject
  {
    if scores == [] then None
    else if scores[0].subject == subject then Some(scores[0].score)
    else ScoreOf(scores[1..], subject)
  }

  /** The subjects scored below 7, in dictionary order. */
  function WeakSubjects(scores: seq<SubjectScore>): (r: seq<string>)
    ensures |r| <= |scores|
    ensures forall s :: s in r <==> exists k :: 0 <= k < |scores| && scores[k].subject == s && scores[k].score < 7
  {
    if scores == [] then []
    else
      var rest := WeakSubjects(scores[1..]);
      assert forall k :: 1 <= k < |scores| ==> scores[k] == scores[1..][k - 1];
      (if scores[0].score < 7 then [scores[0].subject] else []) + rest
  }

  function SelectedInterests(u: User): seq<string> {
    if u.interests.Some? then u.interests.value.selectedInterests else []
  }

  function Strengths(u: User): seq<string> {
    if u.interests.Some? then u.interests.value.strengths else []
  }

  function SubjectLikes(u: User): seq<SubjectScore> {
    if u.interests.Some? then u.interests.value.subjectLikes else []
  }

  /** The profile as a property read sees it in the backend: `subjectLikes`
      is a Mongoose `Map`, whose entries are not properties, so
      `subjectLikes.Math` is undefined and `Object.entries(subjectLikes)`
      lists nothing. */
  function SubjectLikesUnread(u: User): (r: User)
    ensures SubjectLikes(r) == []
    ensures r.academic == u.academic && SelectedInterests(r) == SelectedInterests(u)
  {
    if u.interests.Some? then u.(interests := Some(u.interests.value.(subjectLikes := []))) else u
  }

  function Stream(u: User): string {
    if u.academic.Some? then u.academic.value.stream12 else ""
  }

  function StateOf(u: User): string {
    if u.location.Some? then u.location.value.state else ""
  }

  function DistrictOf(u: User): string {
    if u.location.Some? then u.location.value.district else ""
  }

  /** The unique, sparse clerkId index: no two profiles share a non-empty
      clerkId, while any number of profiles may have none. */
  ghost predicate ClerkIdsUnique(users: map<string, User>) {
    forall a, b :: a in users && b in users && a != b && users[a].clerkId != "" ==>
      users[a].clerkId != users[b].clerkId
  }
}
