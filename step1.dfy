/** The first onboarding step (location, 10th and 12th standard): its
    validator and the two handlers that do more than set one text field. */
module Step1Academic {
  import opened Wrappers
  import opened Onboarding

  /** `isFormValid`: location and 10th details are always required; 12th
      stream and percentage only when 12th is completed. Values are only
      checked for being non-empty. */
  predicate IsFormValid(f: FormData) {
    if f.locality == "" || f.district == "" || f.state == "" then false
    else if f.board10 == "" || f.year10 == "" || f.percentage10 == "" then false
    else if !f.is12Completed then true
    else !(f.stream12 == "" || f.percentage12 == "")
  }

  /** The validator as one condition, clause by clause. */
  lemma IsFormValidIff(f: FormData)
    ensures IsFormValid(f) <==>
      f.locality != "" && f.district != "" && f.state != ""
      && f.board10 != "" && f.year10 != "" && f.percentage10 != ""
      && (f.is12Completed ==> f.stream12 != "" && f.percentage12 != "")
  {
  }

  /** The 35-100 bounds of the percentage input are an attribute of the
      input element only: a form with a 10th percentage of "5" passes. */
  lemma PercentageRangeNotChecked(f: FormData)
    requires f.locality != "" && f.district != "" && f.state != ""
    requires f.board10 != "" && f.year10 != "" && !f.is12Completed
    ensures IsFormValid(f.(percentage10 := "5"))
  {
  }

  /** `handleSubjectChange`: the subject's flag is negated, an unset flag
      counting as false. */
  function SubjectToggle(f: FormData, subject: string): (p: FormPatch)
    ensures p == NoChange.(subjects12 := p.subjects12)
    ensures p.subjects12.Some?
  {
    var current := f.subjects12;
    NoChange.(subjects12 := Some(current[subject := !(subject in current && current[subject])]))
  }

  /** The toggle flips exactly one subject and keeps every other flag and
      every other field. */
  lemma SubjectToggleFlipsOne(f: FormData, subject: string)
    ensures var g := Apply(f, SubjectToggle(f, subject));
      subject in g.subjects12
      && g.subjects12[subject] == !(subject in f.subjects12 && f.subjects12[subject])
      && g.subjects12.Keys == f.subjects12.Keys + {subject}
      && (forall s :: s in f.subjects12 && s != subject ==> g.subjects12[s] == f.subjects12[s])
      && g == f.(subjects12 := g.subjects12)
  {
  }

  /** Toggling a subject twice leaves it set, to the truth value it had
      (false when it was unset). */
  lemma SubjectToggleTwice(f: FormData, subject: string)
    ensures var g := Apply(f, SubjectToggle(f, subject));
      var h := Apply(g, SubjectToggle(g, subject));
      h.subjects12 == f.subjects12[subject := subject in f.subjects12 && f.subjects12[subject]]
  {
  }

  /** The "12th not completed" checkbox: ticking it marks 12th as not
      completed with stream 'Not Completed', unticking it marks 12th as
      completed and clears the stream. */
  function NotCompletedToggle(notCompleted: bool): (p: FormPatch)
    ensures p.is12Completed == Some(!notCompleted)
    ensures p.stream12 == Some(if notCompleted then "Not Completed" else "")
    ensures p == NoChange.(is12Completed := p.is12Completed, stream12 := p.stream12)
  {
    NoChange.(is12Completed := Some(!notCompleted),
              stream12 := Some(if notCompleted then "Not Completed" else ""))
  }

  /** After ticking the checkbox only location and 10th details decide
      validity; after unticking it the cleared stream makes the form
      invalid until a stream is chosen again. */
  lemma {:induction false} NotCompletedToggleValidity(f: FormData)
    ensures IsFormValid(Apply(f, NotCompletedToggle(true))) <==>
      f.locality != "" && f.district != "" && f.state != ""
      && f.board10 != "" && f.year10 != "" && f.percentage10 != ""
    ensures !IsFormValid(Apply(f, NotCompletedToggle(false)))
  {
  }
}
