/** The second onboarding step (graduation): its validator. Its fields are
    set one at a time with `SetText`. */
module Step2Graduation {
  import opened Onboarding

  /** `isFormValid`: a status is required; 'Not Started' needs nothing
      else; otherwise a degree and a college are needed, and a degree of
      'Other' needs the other degree spelled out. */
  predicate IsFormValid(f: FormData) {
    if f.gradStatus == "" then false
    else if f.gradStatus == "Not Started" then true
    else if f.degree == "" || f.college == "" then false
    else if f.degree == "Other" && f.otherDegree == "" then false
    else true
  }

  lemma IsFormValidIff(f: FormData)
    ensures IsFormValid(f) <==>
      f.gradStatus != ""
      && (f.gradStatus != "Not Started" ==>
            f.degree != "" && f.college != "" && (f.degree == "Other" ==> f.otherDegree != ""))
  {
  }

  /** Validity depends on status, degree, other degree and college only:
      specialization, year and score are never required, and setting any of
      them (or any field the step does not show) keeps the verdict. */
  lemma {:induction false} UnrequiredFieldsDoNotMatter(f: FormData, k: TextField, v: string)
    requires k != GradStatus && k != Degree && k != OtherDegree && k != College
    ensures IsFormValid(Apply(f, SetText(k, v))) == IsFormValid(f)
  {
    SetTextChangesOneField(f, k, v);
    var g := Apply(f, SetText(k, v));
    assert Get(g, GradStatus) == Get(f, GradStatus) && Get(g, Degree) == Get(f, Degree);
    assert Get(g, OtherDegree) == Get(f, OtherDegree) && Get(g, College) == Get(f, College);
  }
}
