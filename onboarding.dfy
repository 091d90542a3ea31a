/** The onboarding page: the flat form state the four steps edit, the payload
    it is saved as, the way a stored profile is loaded back into the form, the
    redirect of users who already onboarded, and the step navigation. */
module Onboarding {
  import opened Wrappers
  import opened Models
  import opened UserRoutes
  import opened App

  // ------------------------------------------------------------ form state

  /** The page's `formData`: every profile field as one flat record. */
  datatype FormData = FormData(
    email: string,
    clerkId: string,
    locality: string,
    district: string,
    state: string,
    board10: string,
    year10: string,
    percentage10: string,
    is12Completed: bool,
    stream12: string,
    percentage12: string,
    subjects12: map<string, bool>,
    gradStatus: string,
    degree: string,
    otherDegree: string,
    specialization: string,
    college: string,
    gradYear: string,
    gradScore: string,
    interests: seq<string>,
    otherInterests: string,
    subjectScores: seq<SubjectScore>,
    strengths: seq<string>,
    workStyleEnvironment: string,
    workStyleType: string)

  /** The state the page starts from: the signed-in user's e-mail and id,
      12th taken as completed, everything else empty. (`otherDegree` is not
      in the initial object; the graduation step adds it, and until then it
      reads as `undefined`, here ''.) */
  function InitialForm(email: string, clerkId: string): (f: FormData)
    ensures f.email == email && f.clerkId == clerkId && f.is12Completed
    ensures f.interests == [] && f.subjectScores == [] && f.strengths == [] && f.subjects12 == map[]
  {
    FormData(email, clerkId, "", "", "", "", "", "", true, "", "", map[], "", "", "", "", "", "", "",
             [], "", [], [], "", "")
  }

  /** The object handed to `updateFormData`: the keys it carries are `Some`. */
  datatype FormPatch = FormPatch(
    email: Option<string>,
    clerkId: Option<string>,
    locality: Option<string>,
    district: Option<string>,
    state: Option<string>,
    board10: Option<string>,
    year10: Option<string>,
    percentage10: Option<string>,
    is12Completed: Option<bool>,
    stream12: Option<string>,
    percentage12: Option<string>,
    subjects12: Option<map<string, bool>>,
    gradStatus: Option<string>,
    degree: Option<string>,
    otherDegree: Option<string>,
    specialization: Option<string>,
    college: Option<string>,
    gradYear: Option<string>,
    gradScore: Option<string>,
    interests: Option<seq<string>>,
    otherInterests: Option<string>,
    subjectScores: Option<seq<SubjectScore>>,
    strengths: Option<seq<string>>,
    workStyleEnvironment: Option<string>,
    workStyleType: Option<string>)

  /** The empty object `{}`. */
  const NoChange := FormPatch(None, None, None, None, None, None, None, None, None, None, None,
                              None, None, None, None, None, None, None, None, None, None, None,
                              None, None, None)

  /** `{ ...prev, ...newData }`: each key `newData` carries is overwritten,
      every other one kept. */
  function Apply(prev: FormData, p: FormPatch): FormData {
    FormData(
      OrElse(p.email, prev.email),
      OrElse(p.clerkId, prev.clerkId),
      OrElse(p.locality, prev.locality),
      OrElse(p.district, prev.district),
      OrElse(p.state, prev.state),
      OrElse(p.board10, prev.board10),
      OrElse(p.year10, prev.year10),
      OrElse(p.percentage10, prev.percentage10),
      OrElse(p.is12Completed, prev.is12Completed),
      OrElse(p.stream12, prev.stream12),
      OrElse(p.percentage12, prev.percentage12),
      OrElse(p.subjects12, prev.subjects12),
      OrElse(p.gradStatus, prev.gradStatus),
      OrElse(p.degree, prev.degree),
      OrElse(p.otherDegree, prev.otherDegree),
      OrElse(p.specialization, prev.specialization),
      OrElse(p.college, prev.college),
      OrElse(p.gradYear, prev.gradYear),
      OrElse(p.gradScore, prev.gradScore),
      OrElse(p.interests, prev.interests),
      OrElse(p.otherInterests, prev.otherInterests),
      OrElse(p.subjectScores, prev.subjectScores),
      OrElse(p.strengths, prev.strengths),
      OrElse(p.workStyleEnvironment, prev.workStyleEnvironment),
      OrElse(p.workStyleType, prev.workStyleType))
  }

  /** Two spreads in a row, as one object: where both carry a key the later
      one wins. */
  function Then(p: FormPatch, q: FormPatch): FormPatch {
    FormPatch(
      if q.email.Some? then q.email else p.email,
      if q.clerkId.Some? then q.clerkId else p.clerkId,
      if q.locality.Some? then q.locality else p.locality,
      if q.district.Some? then q.district else p.district,
      if q.state.Some? then q.state else p.state,
      if q.board10.Some? then q.board10 else p.board10,
      if q.year10.Some? then q.year10 else p.year10,
      if q.percentage10.Some? then q.percentage10 else p.percentage10,
      if q.is12Completed.Some? then q.is12Completed else p.is12Completed,
      if q.stream12.Some? then q.stream12 else p.stream12,
      if q.percentage12.Some? then q.percentage12 else p.percentage12,
      if q.subjects12.Some? then q.subjects12 else p.subjects12,
      if q.gradStatus.Some? then q.gradStatus else p.gradStatus,
      if q.degree.Some? then q.degree else p.degree,
      if q.otherDegree.Some? then q.otherDegree else p.otherDegree,
      if q.specialization.Some? then q.specialization else p.specialization,
      if q.college.Some? then q.college else p.college,
      if q.gradYear.Some? then q.gradYear else p.gradYear,
      if q.gradScore.Some? then q.gradScore else p.gradScore,
      if q.interests.Some? then q.interests else p.interests,
      if q.otherInterests.Some? then q.otherInterests else p.otherInterests,
      if q.subjectScores.Some? then q.subjectScores else p.subjectScores,
      if q.strengths.Some? then q.strengths else p.strengths,
      if q.workStyleEnvironment.Some? then q.workStyleEnvironment else p.workStyleEnvironment,
      if q.workStyleType.Some? then q.workStyleType else p.workStyleType)
  }

  /** The patch that sets every field to the values of `f`. */
  function Whole(f: FormData): FormPatch {
    FormPatch(Some(f.email), Some(f.clerkId), Some(f.locality), Some(f.district), Some(f.state),
              Some(f.board10), Some(f.year10), Some(f.percentage10), Some(f.is12Completed),
              Some(f.stream12), Some(f.percentage12), Some(f.subjects12), Some(f.gradStatus),
              Some(f.degree), Some(f.otherDegree), Some(f.specialization), Some(f.college), Some(f.gradYear),
              Some(f.gradScore), Some(f.interests), Some(f.otherInterests), Some(f.subjectScores),
              Some(f.strengths), Some(f.workStyleEnvironment), Some(f.workStyleType))
  }

  /** Spreading `{}` changes nothing. */
  lemma ApplyNoChange(f: FormData)
    ensures Apply(f, NoChange) == f
  {
  }

  /** Applying the same patch twice is applying it once. */
  lemma ApplyIdempotent(f: FormData, p: FormPatch)
    ensures Apply(Apply(f, p), p) == Apply(f, p)
  {
  }

  /** Successive updates compose, the later one winning. */
  lemma ApplyThen(f: FormData, p: FormPatch, q: FormPatch)
    ensures Apply(Apply(f, p), q) == Apply(f, Then(p, q))
  {
  }

  /** A patch carrying every key replaces the whole form. */
  lemma ApplyWhole(f: FormData, g: FormData)
    ensures Apply(f, Whole(g)) == g
  {
  }

  /** The text fields a step sets through `handleChange(field, value)`,
      i.e. `updateFormData({ [field]: value })`. */
  datatype TextField =
    | Locality | District | State | Board10 | Year10 | Percentage10 | Stream12 | Percentage12
    | GradStatus | Degree | OtherDegree | Specialization | College | GradYear | GradScore
    | OtherInterests | WorkStyleEnvironment | WorkStyleType

  function Get(f: FormData, k: TextField): string {
    match k
    case Locality => f.locality
    case District => f.district
    case State => f.state
    case Board10 => f.board10
    case Year10 => f.year10
    case Percentage10 => f.percentage10
    case Stream12 => f.stream12
    case Percentage12 => f.percentage12
    case GradStatus => f.gradStatus
    case Degree => f.degree
    case OtherDegree => f.otherDegree
    case Specialization => f.specialization
    case College => f.college
    case GradYear => f.gradYear
    case GradScore => f.gradScore
    case OtherInterests => f.otherInterests
    case WorkStyleEnvironment => f.workStyleEnvironment
    case WorkStyleType => f.workStyleType
  }

  /** `{ [field]: value }`. */
  function SetText(k: TextField, v: string): FormPatch {
    match k
    case Locality => NoChange.(locality := Some(v))
    case District => NoChange.(district := Some(v))
    case State => NoChange.(state := Some(v))
    case Board10 => NoChange.(board10 := Some(v))
    case Year10 => NoChange.(year10 := Some(v))
    case Percentage10 => NoChange.(percentage10 := Some(v))
    case Stream12 => NoChange.(stream12 := Some(v))
    case Percentage12 => NoChange.(percentage12 := Some(v))
    case GradStatus => NoChange.(gradStatus := Some(v))
    case Degree => NoChange.(degree := Some(v))
    case OtherDegree => NoChange.(otherDegree := Some(v))
    case Specialization => NoChange.(specialization := Some(v))
    case College => NoChange.(college := Some(v))
    case GradYear => NoChange.(gradYear := Some(v))
    case GradScore => NoChange.(gradScore := Some(v))
    case OtherInterests => NoChange.(otherInterests := Some(v))
    case WorkStyleEnvironment => NoChange.(workStyleEnvironment := Some(v))
    case WorkStyleType => NoChange.(workStyleType := Some(v))
  }

  /** The fields that are not text. */
  predicate SameNonText(f: FormData, g: FormData) {
    f.email == g.email && f.clerkId == g.clerkId && f.is12Completed == g.is12Completed
    && f.subjects12 == g.subjects12 && f.interests == g.interests
    && f.subjectScores == g.subjectScores && f.strengths == g.strengths
  }

  /** `handleChange(field, value)` sets that field and no other. */
  lemma SetTextChangesOneField(f: FormData, k: TextField, v: string)
    ensures Get(Apply(f, SetText(k, v)), k) == v
    ensures forall j :: j != k ==> Get(Apply(f, SetText(k, v)), j) == Get(f, j)
    ensures SameNonText(Apply(f, SetText(k, v)), f)
  {
  }

  // ------------------------------------------------------------ saving

  /** `prepareDataForBackend`: the four sections as the form holds them,
      graduation completed iff the status is 'Completed', the work style
      written as "<environment>-<type>", and no chatbot section. The
      specialization is sent too, but the profile schema has no such field,
      so it is not stored and not part of the payload here. */
  function Payload(f: FormData): (req: OnboardingRequest)
    ensures req.email == f.email && req.clerkId == f.clerkId && req.chatbot.None?
    ensures req.location.Some? && req.academic.Some? && req.graduation.Some? && req.interests.Some?
    ensures req.graduation.value.isCompleted == Some(f.gradStatus == "Completed")
    ensures req.interests.value.workStyle == f.workStyleEnvironment + "-" + f.workStyleType
  {
    OnboardingRequest(
      f.email, f.clerkId,
      Some(Location(f.locality, f.district, f.state)),
      Some(Academic(f.board10, f.year10, f.percentage10, Some(f.is12Completed), f.stream12,
                    f.percentage12, f.subjects12)),
      Some(Graduation(Some(f.gradStatus == "Completed"), f.degree, f.college, f.gradYear, f.gradScore)),
      Some(Interests(f.interests, f.subjectScores, f.strengths,
                     f.workStyleEnvironment + "-" + f.workStyleType, f.otherInterests)),
      None)
  }

  /** `saveData`: nothing is sent when the signed-in user has no e-mail
      address; otherwise the payload is posted. */
  function SaveData(userEmail: string, f: FormData): (sent: Option<OnboardingRequest>)
    ensures sent.None? <==> userEmail == ""
    ensures sent.Some? ==> sent.value == Payload(f)
  {
    if userEmail == "" then None else Some(Payload(f))
  }

  // ------------------------------------------------------------ loading

  /** The position of the first `c` in `s`, if any. */
  function IndexOf(s: string, c: char): (r: Option<nat>)
    ensures r.None? <==> c !in s
    ensures r.Some? ==> r.value < |s| && s[r.value] == c && c !in s[..r.value]
  {
    if s == [] then None
    else if s[0] == c then Some(0)
    else
      var rest := IndexOf(s[1..], c);
      if rest.None? then None
      else
        assert s[..rest.value + 1] == [s[0]] + s[1..][..rest.value];
        Some(rest.value + 1)
  }

  /** `s.split(c)[0]`: the text before the first `c`, or all of `s`. */
  function FirstPiece(s: string, c: char): (r: string)
    ensures c !in r
    ensures |r| <= |s| && r == s[..|r|]
  {
    var i := IndexOf(s, c);
    if i.None? then s else s[..i.value]
  }

  /** `s.split(c)[1]`: the text between the first and the second `c`, or
      `undefined` when there is no `c`. */
  function SecondPiece(s: string, c: char): (r: Option<string>)
    ensures r.None? <==> c !in s
    ensures r.Some? ==> c !in r.value
  {
    var i := IndexOf(s, c);
    if i.None? then None else Some(FirstPiece(s[i.value + 1..], c))
  }

  /** In `a + [c] + b` with no `c` in `a`, the first `c` is the one added. */
  lemma {:induction false} IndexOfJoint(a: string, c: char, b: string)
    requires c !in a
    ensures IndexOf(a + [c] + b, c) == Some(|a|)
  {
    if a != [] {
      assert (a + [c] + b)[1..] == a[1..] + [c] + b;
      assert a[1..] == a[..][1..];
      assert forall x :: x in a[1..] ==> x in a;
      IndexOfJoint(a[1..], c, b);
    }
  }

  /** The split recovers the text before the joint, and after it the text
      up to the next separator; so both halves come back when neither
      contains the separator. */
  lemma {:induction false} PiecesOfJoint(a: string, c: char, b: string)
    requires c !in a
    ensures FirstPiece(a + [c] + b, c) == a
    ensures SecondPiece(a + [c] + b, c) == Some(FirstPiece(b, c))
    ensures c !in b ==> SecondPiece(a + [c] + b, c) == Some(b)
  {
    IndexOfJoint(a, c, b);
    var s := a + [c] + b;
    assert s[..|a|] == a;
    assert s[|a| + 1..] == b;
  }

  /** The flatten in `fetchUserData`: each field from its section, '' for
      missing text, `{}` for missing dictionaries, `[]` for missing lists,
      `is12Completed ?? true`, the graduation status guessed from the year,
      the work style split at its first two '-'. The e-mail, the clerkId, the
      other degree and the specialization are kept. */
  function Flatten(prev: FormData, u: User): (f: FormData)
    ensures f.email == prev.email && f.clerkId == prev.clerkId
    ensures f.specialization == prev.specialization && f.otherDegree == prev.otherDegree
    ensures f.gradStatus == (if u.graduation.Some? && u.graduation.value.year != "" then "Pursuing" else "")
    ensures f.is12Completed == (u.academic.None? || u.academic.value.is12Completed.None?
                                || u.academic.value.is12Completed.value)
  {
    var loc := OrElse(u.location, Location("", "", ""));
    var acad := OrElse(u.academic, Academic("", "", "", None, "", "", map[]));
    var grad := OrElse(u.graduation, Graduation(None, "", "", "", ""));
    var ints := OrElse(u.interests, Interests([], [], [], "", ""));
    var second := SecondPiece(ints.workStyle, '-');
    prev.(
      locality := loc.locality,
      district := loc.district,
      state := loc.state,
      board10 := acad.board10,
      year10 := acad.year10,
      percentage10 := acad.percentage10,
      is12Completed := OrElse(acad.is12Completed, true),
      stream12 := acad.stream12,
      percentage12 := acad.percentage12,
      subjects12 := acad.subjects12,
      gradStatus := if grad.year != "" then "Pursuing" else "",
      degree := grad.field,
      college := grad.college,
      gradYear := grad.year,
      gradScore := grad.cgpa,
      interests := ints.selectedInterests,
      otherInterests := ints.otherInterests,
      subjectScores := ints.subjectLikes,
      strengths := ints.strengths,
      workStyleEnvironment := FirstPiece(ints.workStyle, '-'),
      workStyleType := OrElse(second, ""))
  }

  /** What a save followed by a load gives back: the form itself, except that
      the graduation status becomes 'Pursuing' when a year is filled in and
      '' otherwise. */
  function Reloaded(f: FormData): FormData {
    f.(gradStatus := if f.gradYear != "" then "Pursuing" else "")
  }

  /** A profile holding no section reloads as the empty form: '' text, `{}`
      and `[]`, with 12th taken as completed. */
  lemma EmptyProfileReloadsEmpty(prev: FormData, email: string)
    ensures Flatten(prev, User(email, "", None, None, None, None, EmptyChatbotData))
            == InitialForm(prev.email, prev.clerkId).(specialization := prev.specialization,
                                                      otherDegree := prev.otherDegree)
  {
  }

  /** Save then load: a new profile created from the payload reads back as
      `Reloaded(f)`, provided neither work-style half contains '-'. */
  lemma {:induction false} NewProfileRoundTrip(prev: FormData, f: FormData)
    requires '-' !in f.workStyleEnvironment && '-' !in f.workStyleType
    requires prev.email == f.email && prev.clerkId == f.clerkId
    requires prev.specialization == f.specialization && prev.otherDegree == f.otherDegree
    ensures Flatten(prev, NewUser(Payload(f))) == Reloaded(f)
  {
    PiecesOfJoint(f.workStyleEnvironment, '-', f.workStyleType);
    assert f.workStyleEnvironment + "-" + f.workStyleType
        == f.workStyleEnvironment + ['-'] + f.workStyleType;
  }

  /** The same for an existing profile: the payload carries every section,
      so the merge replaces all four and the load reads back `Reloaded(f)`. */
  lemma {:induction false} MergedProfileRoundTrip(prev: FormData, u: User, f: FormData)
    requires '-' !in f.workStyleEnvironment && '-' !in f.workStyleType
    requires prev.email == f.email && prev.clerkId == f.clerkId
    requires prev.specialization == f.specialization && prev.otherDegree == f.otherDegree
    ensures Flatten(prev, Merge(u, Payload(f))) == Reloaded(f)
  {
    PiecesOfJoint(f.workStyleEnvironment, '-', f.workStyleType);
    assert f.workStyleEnvironment + "-" + f.workStyleType
        == f.workStyleEnvironment + ['-'] + f.workStyleType;
  }

  /** A work style whose environment contains '-' does not survive: an
      environment "x-y" reloads as "x", and its second part "y" takes the
      place of the type. */
  lemma {:induction false} DashInEnvironmentIsLost(prev: FormData, f: FormData, x: string, y: string)
    requires f.workStyleEnvironment == x + "-" + y && '-' !in x && '-' !in y
    ensures Flatten(prev, NewUser(Payload(f))).workStyleEnvironment == x
    ensures Flatten(prev, NewUser(Payload(f))).workStyleType == y
  {
    var rest := y + "-" + f.workStyleType;
    assert f.workStyleEnvironment + "-" + f.workStyleType == x + ['-'] + rest;
    PiecesOfJoint(x, '-', rest);
    assert rest == y + ['-'] + f.workStyleType;
    PiecesOfJoint(y, '-', f.workStyleType);
  }

  // ------------------------------------------------------------ redirect

  /** The page's own check on the loaded profile: it leaves for the
      dashboard iff the completion test is truthy and no retake was asked
      for. */
  function LeavesForDashboard(retake: bool, u: User): (r: bool)
    ensures r <==> HasOnboarded(u) && !retake
  {
    CompletionTruthyIff(u);
    IsTruthy(CompletionValue(u)) && !retake
  }

  /** The guard in front of this page redirects only on the value `true`;
      the profiles it lets through that have onboarded are exactly those
      whose completion value is some other truthy value, and the page's own
      check sends each of them to the dashboard. */
  lemma {:induction false} PageCatchesWhatGuardMisses(email: string, u: User)
    requires email != ""
    ensures GuardOutcome(true, true, true, email, false, Some(u)) == Children && LeavesForDashboard(false, u)
            <==> HasOnboarded(u) && CompletionValue(u) != Bool(true)
  {
    GuardRedirectsOnlyOnTrue(email, u);
    CompletionIsTrueOnlyThroughInterests(u);
    CompletionTruthyIff(u);
  }

  // ------------------------------------------------------------ the page

  /** The page component: the current step and the form. */
  class OnboardingPage {
    var step: int
    var form: FormData

    constructor(email: string, clerkId: string)
      ensures step == 1 && form == InitialForm(email, clerkId)
    {
      step := 1;
      form := InitialForm(email, clerkId);
    }

    /** `updateFormData`. */
    method UpdateFormData(p: FormPatch)
      modifies this
      ensures form == Apply(old(form), p) && step == old(step)
    {
      form := Apply(form, p);
    }

    /** `handleNext`: save, then advance exactly one step. */
    method HandleNext(userEmail: string) returns (sent: Option<OnboardingRequest>)
      modifies this
      ensures sent == SaveData(userEmail, old(form))
      ensures step == old(step) + 1 && form == old(form)
    {
      sent := SaveData(userEmail, form);
      step := step + 1;
    }

    /** `handleFinish`: the form is saved (a failed save is only logged) and
        the user is sent to the dashboard either way. */
    method HandleFinish(userEmail: string) returns (sent: Option<OnboardingRequest>, toDashboard: bool)
      ensures sent == SaveData(userEmail, form)
      ensures toDashboard
    {
      sent := SaveData(userEmail, form);
      toDashboard := true;
    }

    /** The Back buttons of steps 2, 3 and 4 set steps 1, 2 and 3. */
    method Back()
      modifies this
      ensures 2 <= old(step) <= 4 ==> step == old(step) - 1
      ensures !(2 <= old(step) <= 4) ==> step == old(step)
      ensures form == old(form)
    {
      if step == 2 {
        step := 1;
      } else if step == 3 {
        step := 2;
      } else if step == 4 {
        step := 3;
      }
    }

    /** `fetchUserData`: the e-mail and id are copied in first; a found
      profile then either sends the user to the dashboard or is flattened
      into the form. A failed lookup leaves the form as it is. */
    method FetchUserData(userEmail: string, userId: string, retake: bool, fetched: Option<User>)
      returns (redirect: bool)
      modifies this
      ensures redirect <==> userEmail != "" && fetched.Some? && LeavesForDashboard(retake, fetched.value)
      ensures step == old(step)
      ensures userEmail == "" ==> form == old(form)
      ensures userEmail != "" ==>
        var f := old(form).(email := userEmail, clerkId := userId);
        form == if fetched.Some? && !redirect then Flatten(f, fetched.value) else f
    {
      redirect := false;
      if userEmail != "" {
        form := form.(email := userEmail, clerkId := userId);
        if fetched.Some? {
          if LeavesForDashboard(retake, fetched.value) {
            redirect := true;
            return;
          }
          form := Flatten(form, fetched.value);
        }
      }
    }
  }
}
