/** The front end's routing decisions: the onboarding-completion test, the
    guard every signed-in page sits behind (`ProtectedRoute`) and the redirect
    from the root path (`RootRedirect`). Each component first renders while
    an effect looks the profile up, then renders again from the state the
    effect left; the profile lookup is a parameter (`None` when the request
    fails, which is what a 404 for an unknown e-mail does). */
module App {
  import opened Wrappers
  import opened Models

  // -------------------------------------------------- the completion test

  /** The JavaScript values the completion test can produce: `||` and `&&`
      return one of their operands, so the result is a string, a boolean or
      `undefined`/`null`. */
  datatype JsValue = Null | Bool(b: bool) | Text(s: string)

  predicate IsTruthy(v: JsValue) {
    match v
    case Null => false
    case Bool(b) => b
    case Text(s) => s != ""
  }

  /** `a || b`: the first operand when truthy, else the second. */
  function Or(a: JsValue, b: JsValue): (r: JsValue)
    ensures IsTruthy(r) <==> IsTruthy(a) || IsTruthy(b)
  {
    if IsTruthy(a) then a else b
  }

  /** `data?.academicDetails && (board10 || stream12)`. */
  function AcademicOperand(u: User): JsValue {
    if u.academic.None? then Null
    else Or(Text(u.academic.value.board10), Text(u.academic.value.stream12))
  }

  /** `data?.interests && (selectedInterests?.length > 0 || strengths?.length > 0
      || (subjectLikes && Object.keys(subjectLikes).length > 0))`. */
  function InterestsOperand(u: User): JsValue {
    if u.interests.None? then Null
    else
      var i := u.interests.value;
      Bool(|i.selectedInterests| > 0 || |i.strengths| > 0 || |i.subjectLikes| > 0)
  }

  /** `data?.location && (state || district)`. */
  function LocationOperand(u: User): JsValue {
    if u.location.None? then Null
    else Or(Text(u.location.value.state), Text(u.location.value.district))
  }

  /** `data?.graduationDetails && field`. */
  function GraduationOperand(u: User): JsValue {
    if u.graduation.None? then Null else Text(u.graduation.value.field)
  }

  /** The value of `hasCompletedOnboarding`: the five operands joined by `||`,
      so the first truthy one (or the last one when none is). The same
      expression appears in both components here and in the onboarding page. */
  function CompletionValue(u: User): JsValue {
    Or(Or(Or(Or(AcademicOperand(u), InterestsOperand(u)), Text(u.chatbot.careerPath)),
          LocationOperand(u)), GraduationOperand(u))
  }

  /** What the test means: some section of the profile was filled in. */
  predicate HasOnboarded(u: User) {
    (u.academic.Some? && (u.academic.value.board10 != "" || u.academic.value.stream12 != ""))
    || (u.interests.Some? && (|u.interests.value.selectedInterests| > 0
        || |u.interests.value.strengths| > 0 || |u.interests.value.subjectLikes| > 0))
    || u.chatbot.careerPath != ""
    || (u.location.Some? && (u.location.value.state != "" || u.location.value.district != ""))
    || (u.graduation.Some? && u.graduation.value.field != "")
  }

  /** Read as a truth value, the completion test is exactly `HasOnboarded`. */
  lemma CompletionTruthyIff(u: User)
    ensures IsTruthy(CompletionValue(u)) <==> HasOnboarded(u)
  {
  }

  /** The test yields the boolean `true` only when the academic operand is
      falsy and the interests operand is true: a profile whose 10th board or
      12th stream is filled in yields that text instead. */
  lemma {:induction false} CompletionIsTrueOnlyThroughInterests(u: User)
    ensures CompletionValue(u) == Bool(true) <==>
      !IsTruthy(AcademicOperand(u)) && InterestsOperand(u) == Bool(true)
  {
    var a := AcademicOperand(u);
    var b := InterestsOperand(u);
    if IsTruthy(Or(a, b)) {
      assert CompletionValue(u) == Or(a, b);
    } else {
      assert !IsTruthy(CompletionValue(u)) || CompletionValue(u).Text?;
    }
  }

  // -------------------------------------------------------- the outcomes

  /** What a routing component renders. */
  datatype Outcome = Loading | ToLogin | ToDashboard | ToOnboarding | Children

  // ---------------------------------------------------- the page guard

  /** The state `ProtectedRoute`'s effect leaves, starting from `hasData`
      null. Signed out (or auth not loaded): only loading ends. With
      `checkData` and an e-mail: a retake counts as "no data" without a
      lookup, else the lookup's completion value, a failed lookup again "no
      data". Without `checkData` (or without an e-mail) the data is taken to
      be there. */
  function GuardData(checkData: bool, isLoaded: bool, isSignedIn: bool, email: string,
                     retake: bool, fetched: Option<User>, prior: JsValue): (r: JsValue)
    ensures !isLoaded || !isSignedIn ==> r == prior
    ensures isLoaded && isSignedIn && !(checkData && email != "") ==> r == Bool(true)
    ensures isLoaded && isSignedIn && checkData && email != "" && !retake && fetched.Some? ==>
      r == CompletionValue(fetched.value)
    ensures isLoaded && isSignedIn && checkData && email != "" && (retake || fetched.None?) ==>
      r == Bool(false)
  {
    if !isLoaded || !isSignedIn then prior
    else if checkData && email != "" then
      if retake then Bool(false)
      else if fetched.Some? then CompletionValue(fetched.value)
      else Bool(false)
    else Bool(true)
  }

  /** `ProtectedRoute`'s render, as written: the dashboard redirect needs
      `hasData === true`. */
  function GuardView(checkData: bool, isLoaded: bool, isSignedIn: bool, retake: bool,
                     hasData: JsValue, loading: bool): Outcome
  {
    if checkData && hasData == Bool(true) && !loading && !retake then ToDashboard
    else if !isLoaded || loading then Loading
    else if !isSignedIn then ToLogin
    else Children
  }

  /** The render as evidently intended: the redirect follows the truth of
      `hasData`, as the onboarding page's own test and `RootRedirect` do. */
  function GuardViewIntended(checkData: bool, isLoaded: bool, isSignedIn: bool, retake: bool,
                             hasData: JsValue, loading: bool): Outcome
  {
    if checkData && IsTruthy(hasData) && !loading && !retake then ToDashboard
    else if !isLoaded || loading then Loading
    else if !isSignedIn then ToLogin
    else Children
  }

  /** The guard component: its two state variables and the effect that sets
      them. */
  class ProtectedRoute {
    const checkData: bool
    var hasData: JsValue
    var loading: bool

    constructor(checkData: bool)
      ensures this.checkData == checkData && hasData == Null && loading
    {
      this.checkData := checkData;
      hasData := Null;
      loading := true;
    }

    /** The effect `checkUserData`; it always ends loading. */
    method CheckUserData(isLoaded: bool, isSignedIn: bool, email: string, retake: bool,
                         fetched: Option<User>)
      modifies this
      ensures hasData == GuardData(checkData, isLoaded, isSignedIn, email, retake, fetched, old(hasData))
      ensures !loading
    {
      if !isLoaded || !isSignedIn {
        loading := false;
        return;
      }
      if checkData && email != "" {
        if retake {
          hasData := Bool(false);
          loading := false;
          return;
        }
        if fetched.Some? {
          hasData := CompletionValue(fetched.value);
        } else {
          hasData := Bool(false);
        }
      } else {
        hasData := Bool(true);
      }
      loading := false;
    }

    function View(isLoaded: bool, isSignedIn: bool, retake: bool): Outcome
      reads this
    {
      GuardView(checkData, isLoaded, isSignedIn, retake, hasData, loading)
    }
  }

  /** What the guard shows once its effect has run, from the initial state. */
  function GuardOutcome(checkData: bool, isLoaded: bool, isSignedIn: bool, email: string,
                        retake: bool, fetched: Option<User>): Outcome
  {
    GuardView(checkData, isLoaded, isSignedIn, retake,
              GuardData(checkData, isLoaded, isSignedIn, email, retake, fetched, Null), false)
  }

  function GuardOutcomeIntended(checkData: bool, isLoaded: bool, isSignedIn: bool, email: string,
                                retake: bool, fetched: Option<User>): Outcome
  {
    GuardViewIntended(checkData, isLoaded, isSignedIn, retake,
                      GuardData(checkData, isLoaded, isSignedIn, email, retake, fetched, Null), false)
  }

  /** Before its effect has run the guard shows the loading screen, since
      `loading` starts true and `hasData` null. */
  lemma GuardStartsLoading(checkData: bool, isLoaded: bool, isSignedIn: bool, retake: bool)
    ensures GuardView(checkData, isLoaded, isSignedIn, retake, Null, true) == Loading
  {
  }

  /** A signed-in user asking to retake the survey gets the onboarding page,
      whatever the profile holds: no lookup is made. */
  lemma RetakeRendersChildren(checkData: bool, email: string, fetched: Option<User>)
    ensures GuardOutcome(checkData, true, true, email, true, fetched) == Children
  {
  }

  /** A failed lookup counts as "no data": the page is shown. */
  lemma FetchErrorRendersChildren(email: string, retake: bool)
    requires email != ""
    ensures GuardOutcome(true, true, true, email, retake, None) == Children
  {
  }

  /** With `checkData` but no e-mail address the data is taken to be there,
      so a signed-in user is sent to the dashboard. */
  lemma NoEmailRedirectsToDashboard(retake: bool, fetched: Option<User>)
    ensures GuardOutcome(true, true, true, "", retake, fetched) == (if retake then Children else ToDashboard)
  {
  }

  /** Without `checkData` the guard only checks sign-in: signed-in users get
      the page, signed-out users are sent to the login once auth is loaded. */
  lemma UncheckedGuardChecksSignInOnly(email: string, retake: bool, fetched: Option<User>, isSignedIn: bool)
    ensures GuardOutcome(false, true, isSignedIn, email, retake, fetched)
            == if isSignedIn then Children else ToLogin
  {
  }

  /** As written, a found profile sends the user to the dashboard exactly
      when the completion value is the boolean `true`. */
  lemma {:induction false} GuardRedirectsOnlyOnTrue(email: string, u: User)
    requires email != ""
    ensures GuardOutcome(true, true, true, email, false, Some(u)) == ToDashboard <==>
      !IsTruthy(AcademicOperand(u)) && InterestsOperand(u) == Bool(true)
  {
    CompletionIsTrueOnlyThroughInterests(u);
  }

  /** A profile that completed onboarding (its 10th board is filled in) is
      not redirected by the guard as written: the completion value is the
      text "CBSE", not `true`. */
  lemma GuardMissesBoardOnlyProfile()
    ensures var u := User("a@b.in", "", None,
                          Some(Academic("CBSE", "", "", None, "", "", map[])),
                          None, None, EmptyChatbotData);
      HasOnboarded(u) && GuardOutcome(true, true, true, "a@b.in", false, Some(u)) == Children
  {
  }

  /** The intended guard redirects a found, non-retaking profile exactly
      when it has onboarded. */
  lemma {:induction false} GuardIntendedRedirectsOnboarded(email: string, u: User)
    requires email != ""
    ensures GuardOutcomeIntended(true, true, true, email, false, Some(u)) == ToDashboard <==>
      HasOnboarded(u)
  {
    CompletionTruthyIff(u);
  }

  // ---------------------------------------------------- the root redirect

  /** The state `RootRedirect`'s effect leaves, from `hasData` null: the
      lookup runs only for a signed-in user with an e-mail. */
  function RootData(isLoaded: bool, isSignedIn: bool, email: string, fetched: Option<User>,
                    prior: JsValue): (r: JsValue)
    ensures isLoaded && isSignedIn && email != "" ==>
      IsTruthy(r) == (fetched.Some? && HasOnboarded(fetched.value))
    ensures !(isLoaded && isSignedIn && email != "") ==> r == prior
  {
    if !isLoaded || !isSignedIn || email == "" then prior
    else if fetched.Some? then
      CompletionTruthyIff(fetched.value);
      CompletionValue(fetched.value)
    else Bool(false)
  }

  function RootView(isSignedIn: bool, hasData: JsValue, loading: bool): Outcome {
    if loading then Loading
    else if !isSignedIn then ToLogin
    else if IsTruthy(hasData) then ToDashboard
    else ToOnboarding
  }

  class RootRedirect {
    var hasData: JsValue
    var loading: bool

    constructor()
      ensures hasData == Null && loading
    {
      hasData := Null;
      loading := true;
    }

    method CheckUserData(isLoaded: bool, isSignedIn: bool, email: string, fetched: Option<User>)
      modifies this
      ensures hasData == RootData(isLoaded, isSignedIn, email, fetched, old(hasData))
      ensures !loading
    {
      if !isLoaded {
        loading := false;
        return;
      }
      if !isSignedIn {
        loading := false;
        return;
      }
      if email != "" {
        if fetched.Some? {
          hasData := CompletionValue(fetched.value);
        } else {
          hasData := Bool(false);
        }
      }
      loading := false;
    }

    function View(isSignedIn: bool): Outcome
      reads this
    {
      RootView(isSignedIn, hasData, loading)
    }
  }

  /** Where the root path leads once the effect has run: signed-out users to
      the login, signed-in users to the dashboard when their profile has
      onboarded and to onboarding otherwise (also when the lookup fails or
      there is no e-mail). */
  lemma {:induction false} RootRedirectDecides(isLoaded: bool, isSignedIn: bool, email: string,
                                              fetched: Option<User>)
    ensures var out := RootView(isSignedIn, RootData(isLoaded, isSignedIn, email, fetched, Null), false);
      (!isSignedIn ==> out == ToLogin)
      && (isSignedIn ==> (out == ToDashboard <==>
            isLoaded && email != "" && fetched.Some? && HasOnboarded(fetched.value)))
      && (isSignedIn ==> (out == ToOnboarding || out == ToDashboard))
  {
    var d := RootData(isLoaded, isSignedIn, email, fetched, Null);
    if !(isLoaded && isSignedIn && email != "") {
      assert d == Null;
    }
  }
}
