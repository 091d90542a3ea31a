/** The third onboarding step (interests, subject ratings, work style): the
    interest toggle, the score slider, the validator, and the interests and
    subjects offered for the chosen degree. */
module Step3Interests {
  import opened Wrappers
  import opened Models
  import opened Onboarding

  // ------------------------------------------------------------ interests

  /** `current.filter(i => i !== x)`. */
  function Without(s: seq<string>, x: string): (r: seq<string>)
    ensures x !in r
    ensures forall y :: y != x ==> (y in r <==> y in s)
    ensures |r| <= |s|
  {
    if s == [] then []
    else
      var rest := Without(s[1..], x);
      assert forall y :: y in s <==> y == s[0] || y in s[1..];
      if s[0] == x then rest else [s[0]] + rest
  }

  lemma {:induction false} WithoutAbsent(s: seq<string>, x: string)
    requires x !in s
    ensures Without(s, x) == s
  {
    if s != [] {
      assert s[0] != x && x !in s[1..];
      WithoutAbsent(s[1..], x);
    }
  }

  lemma {:induction false} WithoutAppended(s: seq<string>, x: string)
    ensures Without(s + [x], x) == Without(s, x)
  {
    if s == [] {
      assert [x][1..] == [];
    } else {
      assert (s + [x])[1..] == s[1..] + [x];
      WithoutAppended(s[1..], x);
    }
  }

  /** `handleInterestToggle`: a selected interest is removed (every copy of
      it), an unselected one appended at the end. */
  function Toggle(current: seq<string>, interest: string): (r: seq<string>)
    ensures interest in current ==>
      interest !in r && forall y :: y != interest ==> (y in r <==> y in current)
    ensures interest !in current ==> r == current + [interest]
  {
    if interest in current then Without(current, interest) else current + [interest]
  }

  function InterestToggle(f: FormData, interest: string): FormPatch {
    NoChange.(interests := Some(Toggle(f.interests, interest)))
  }

  /** Toggling an unselected interest twice gives back the original list. */
  lemma {:induction false} ToggleTwiceRestores(current: seq<string>, interest: string)
    requires interest !in current
    ensures Toggle(Toggle(current, interest), interest) == current
  {
    assert interest in current + [interest];
    WithoutAppended(current, interest);
    WithoutAbsent(current, interest);
  }

  // ------------------------------------------------------------ scores

  /** `{ ...currentScores, [subject]: score }`: an existing key keeps its
      place and takes the new score, a new key is added at the end. */
  function SetScore(scores: seq<SubjectScore>, subject: string, score: int): (r: seq<SubjectScore>)
    ensures ScoreOf(r, subject) == Some(score)
    ensures forall s :: s != subject ==> ScoreOf(r, s) == ScoreOf(scores, s)
    ensures |r| == |scores| + (if ScoreOf(scores, subject).Some? then 0 else 1)
  {
    if scores == [] then [SubjectScore(subject, score)]
    else if scores[0].subject == subject then [SubjectScore(subject, score)] + scores[1..]
    else
      var rest := SetScore(scores[1..], subject, score);
      var r := [scores[0]] + rest;
      assert r[1..] == rest;
      r
  }

  /** `handleScoreChange`: the slider's value, already parsed. */
  function ScoreChange(f: FormData, subject: string, score: int): FormPatch {
    NoChange.(subjectScores := Some(SetScore(f.subjectScores, subject, score)))
  }

  /** `formData.subjectScores?.[sub] || 5`: an unset (or zero) score shows
      as 5. */
  function DisplayedScore(scores: seq<SubjectScore>, subject: string): (r: int)
    ensures ScoreOf(scores, subject).None? ==> r == 5
    ensures ScoreOf(scores, subject).Some? && ScoreOf(scores, subject).value != 0 ==>
      r == ScoreOf(scores, subject).value
  {
    var s := ScoreOf(scores, subject);
    if s.Some? && s.value != 0 then s.value else 5
  }

  /** After moving a slider to a score from 1 to 10 the slider shows that
      score, and every other slider shows what it showed before. */
  lemma {:induction false} SliderShowsItsScore(f: FormData, subject: string, score: int, other: string)
    requires 1 <= score <= 10 && other != subject
    ensures DisplayedScore(Apply(f, ScoreChange(f, subject, score)).subjectScores, subject) == score
    ensures DisplayedScore(Apply(f, ScoreChange(f, subject, score)).subjectScores, other)
            == DisplayedScore(f.subjectScores, other)
  {
    var r := SetScore(f.subjectScores, subject, score);
    assert ScoreOf(r, other) == ScoreOf(f.subjectScores, other);
  }

  // ------------------------------------------------------------ validation

  /** `isFormValid`: at least three interests and both work-style choices. */
  predicate IsFormValid(f: FormData) {
    if |f.interests| < 3 then false
    else if f.workStyleEnvironment == "" || f.workStyleType == "" then false
    else true
  }

  lemma IsFormValidIff(f: FormData)
    ensures IsFormValid(f) <==>
      |f.interests| >= 3 && f.workStyleEnvironment != "" && f.workStyleType != ""
  {
  }

  // ------------------------------------------------------------ offers

  datatype DegreeContent = DegreeContent(interests: seq<string>, subjects: seq<string>)

  const OtherContent := DegreeContent(["Research", "Professional"],
                                      ["General Aptitude", "Reasoning", "English"])

  /** The `degreeContent` table, by the degree names the graduation step
      offers. */
  function ContentOf(degree: string): (r: Option<DegreeContent>)
    ensures r.Some? <==> degree in {"B.Tech/B.E", "B.Sc", "B.Com", "BBA", "B.A", "Diploma", "Other"}
  {
    if degree == "B.Tech/B.E" then
      Some(DegreeContent(["Coding", "Robotics", "Web Dev", "Data Science", "Cyber Security", "AI/ML"],
                         ["Mathematics", "Physics", "Programming", "Data Structures"]))
    else if degree == "B.Sc" then
      Some(DegreeContent(["Research", "Lab Work", "Analysis"],
                         ["Physics", "Chemistry", "Biology", "Mathematics"]))
    else if degree == "B.Com" then
      Some(DegreeContent(["Finance", "Accounting", "Business", "Stock Market", "Investing"],
                         ["Accounts", "Economics", "Business Studies", "Statistics"]))
    else if degree == "BBA" then
      Some(DegreeContent(["Management", "Marketing", "HR"],
                         ["Management Principles", "Marketing", "HR Management", "Economics"]))
    else if degree == "B.A" then
      Some(DegreeContent(["Writing", "History", "Politics", "Social Work", "Film Making", "Animation"],
                         ["English", "History", "Pol Science", "Sociology"]))
    else if degree == "Diploma" then
      Some(DegreeContent(["Practical Skills", "Field Work"],
                         ["Applied Science", "Workshop Tech", "Engineering Drawing"]))
    else if degree == "Other" then Some(OtherContent)
    else None
  }

  /** `degreeContent[formData.degree] || degreeContent['Other']`. */
  function Content(degree: string): (r: DegreeContent)
    ensures ContentOf(degree).None? ==> r == OtherContent
    ensures ContentOf(degree).Some? ==> r == ContentOf(degree).value
  {
    var c := ContentOf(degree);
    if c.Some? then c.value else OtherContent
  }

  const GeneralHobbies := ["Music", "Reading", "Travel", "Gaming", "Art", "Photography",
                           "Cooking", "Gardening", "Fitness"]

  /** The interest buttons: the degree's interests, the general hobbies, then
      'Other'. */
  function OfferedInterests(degree: string): (r: seq<string>)
    ensures var own := Content(degree).interests;
      |r| == |own| + 10 && r[..|own|] == own && r[|own|..|own| + 9] == GeneralHobbies
      && r[|r| - 1] == "Other"
  {
    Content(degree).interests + GeneralHobbies + ["Other"]
  }

  /** An empty or unknown degree gets the same offer as 'Other': two own
      interests, nine hobbies, 'Other', and three subjects to rate. */
  lemma {:induction false} UnknownDegreeGetsOtherOffer(degree: string)
    requires ContentOf(degree).None?
    ensures OfferedInterests(degree) == OfferedInterests("Other")
    ensures |OfferedInterests(degree)| == 12
    ensures Content(degree).subjects == ["General Aptitude", "Reasoning", "English"]
  {
    assert Content(degree) == OtherContent == Content("Other");
  }
}
