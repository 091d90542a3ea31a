/** The fourth onboarding step (the chat): the conversation state it keeps
    while the assessment service asks questions, the career path and summary
    it derives from the recommended careers, the three payloads it saves, and
    how the recommendation message is rendered. The assessment service's
    replies are parameters. */
module Step4Chatbot {
  import opened Wrappers
  import opened Strings
  import opened Models
  import opened UserRoutes
  import opened Onboarding
  import CleanText

  // ------------------------------------------------------------ career path

  const DegreeWords := ["teacher", "bank", "government", "clerk"]
  const ArtsWords := ["design", "creative", "arts"]
  const ExamWords := ["upsc", "ias", "ips"]
  const RuralWords := ["rural", "agriculture", "extension"]

  /** The category `generateFinalPrediction` derives from the first
      career's lower-cased name; the first group that matches decides. */
  function CareerPath(name: string): (r: Category)
    ensures r != Urban
    ensures ContainsAny(Lower(name), DegreeWords) ==> r == DegreeBased
    ensures r == CommunicationArts <==>
      !ContainsAny(Lower(name), DegreeWords) && ContainsAny(Lower(name), ArtsWords)
    ensures r == Rural <==>
      !ContainsAny(Lower(name), DegreeWords) && !ContainsAny(Lower(name), ArtsWords)
      && !ContainsAny(Lower(name), ExamWords) && ContainsAny(Lower(name), RuralWords)
  {
    var t := Lower(name);
    if ContainsAny(t, DegreeWords) then DegreeBased
    else if ContainsAny(t, ArtsWords) then CommunicationArts
    else if ContainsAny(t, ExamWords) then DegreeBased
    else if ContainsAny(t, RuralWords) then Rural
    else SkillBased
  }

  const NarrowDegreeWords := ["teacher", "bank", "government"]
  const NarrowArtsWords := ["design", "creative"]

  /** The narrower mapping of the "View Dashboard" button. */
  function ViewDashboardPath(name: string): (r: Category)
    ensures r == DegreeBased || r == CommunicationArts || r == SkillBased
  {
    var t := Lower(name);
    if ContainsAny(t, NarrowDegreeWords) then DegreeBased
    else if ContainsAny(t, NarrowArtsWords) then CommunicationArts
    else SkillBased
  }

  /** The narrow word lists are sub-lists of the full ones. */
  lemma {:induction false} NarrowWordsAreFullWords(t: string)
    ensures ContainsAny(t, NarrowDegreeWords) ==> ContainsAny(t, DegreeWords)
    ensures ContainsAny(t, NarrowArtsWords) ==> ContainsAny(t, ArtsWords)
  {
    if ContainsAny(t, NarrowDegreeWords) {
      var k :| 0 <= k < 3 && Contains(t, NarrowDegreeWords[k]);
      assert DegreeWords[k] == NarrowDegreeWords[k];
    }
    if ContainsAny(t, NarrowArtsWords) {
      var k :| 0 <= k < 2 && Contains(t, NarrowArtsWords[k]);
      assert ArtsWords[k] == NarrowArtsWords[k];
    }
  }

  /** Where the two mappings part: the narrow one never says Degree-Based
      unless the full one does; it says Communication & Arts only where the
      full one does or the name mentions "clerk"; and it falls back to
      Skill-Based for every exam or rural career the full one recognises. */
  lemma {:induction false} MappingsAgreeWhereNarrowDecides(name: string)
    ensures ViewDashboardPath(name) == DegreeBased ==> CareerPath(name) == DegreeBased
    ensures ViewDashboardPath(name) == CommunicationArts ==>
      CareerPath(name) == CommunicationArts || Contains(Lower(name), "clerk")
    ensures CareerPath(name) == SkillBased ==> ViewDashboardPath(name) == SkillBased
  {
    var t := Lower(name);
    NarrowWordsAreFullWords(t);
    if ViewDashboardPath(name) == CommunicationArts && CareerPath(name) != CommunicationArts {
      assert ContainsAny(t, DegreeWords) && !ContainsAny(t, NarrowDegreeWords);
      var k :| 0 <= k < 4 && Contains(t, DegreeWords[k]);
    }
  }

  /** A first career naming an exam (say "UPSC Aspirant") is stored as
      Degree-Based by the prediction but as Skill-Based by the button. */
  lemma {:induction false} ExamCareerPathsDiffer(name: string)
    requires Contains(Lower(name), "upsc")
    requires !ContainsAny(Lower(name), DegreeWords) && !ContainsAny(Lower(name), ArtsWords)
    ensures CareerPath(name) == DegreeBased
    ensures ViewDashboardPath(name) == SkillBased
  {
    var t := Lower(name);
    assert ExamWords[0] == "upsc";
    NarrowWordsAreFullWords(t);
  }

  /** With no recommended careers the category comes from the form: Science
      or any degree gives Degree-Based, then a Public Speaking interest or
      the Arts stream overrides that with Communication & Arts. */
  function FallbackPath(f: FormData): (r: Category)
    ensures r == CommunicationArts <==> "Public Speaking" in f.interests || f.stream12 == "Arts"
    ensures r == DegreeBased <==>
      !("Public Speaking" in f.interests || f.stream12 == "Arts")
      && (f.stream12 == "Science" || f.degree != "")
    ensures r == DegreeBased || r == CommunicationArts || r == SkillBased
  {
    var c1 := if f.stream12 == "Science" || f.degree != "" then DegreeBased else SkillBased;
    if "Public Speaking" in f.interests || f.stream12 == "Arts" then CommunicationArts else c1
  }

  // ------------------------------------------------------------ summary

  /** "name (salary)", or just the name when there is no salary. */
  function CareerLabel(c: Career): (r: string)
    ensures StartsWith(r, c.name)
  {
    var r := c.name + (if c.salary != "" then " (" + c.salary + ")" else "");
    assert r[..|c.name|] == c.name;
    r
  }

  function Labels(careers: seq<Career>): (r: seq<string>)
    ensures |r| == |careers|
    ensures forall k :: 0 <= k < |r| ==> r[k] == CareerLabel(careers[k])
  {
    if careers == [] then [] else [CareerLabel(careers[0])] + Labels(careers[1..])
  }

  function Min(a: nat, b: nat): nat {
    if a < b then a else b
  }

  /** The summary: the career labels joined by "; ", then " | Insights: "
      and at most the first two insights when there are any. */
  function Summary(careers: seq<Career>, insights: seq<string>): (r: string)
    ensures |insights| == 0 ==> r == Join(Labels(careers), "; ")
  {
    Join(Labels(careers), "; ")
    + (if |insights| > 0 then " | Insights: " + Join(insights[..Min(2, |insights|)], "; ") else "")
  }

  /** Every recommended career's name appears in the summary. */
  lemma {:induction false} SummaryNamesEveryCareer(careers: seq<Career>, insights: seq<string>, k: nat)
    requires k < |careers|
    ensures Contains(Summary(careers, insights), careers[k].name)
  {
    var labels := Labels(careers);
    var joined := Join(labels, "; ");
    JoinContainsParts(labels, "; ", k);
    ContainsAt(labels[k], careers[k].name, 0);
    ContainsTrans(joined, labels[k], careers[k].name);
    var tail := Summary(careers, insights)[|joined|..];
    assert Summary(careers, insights) == "" + joined + tail;
    ContainsWithin("", joined, tail, careers[k].name);
  }

  /** The first two insights appear in the summary. */
  lemma {:induction false} SummaryQuotesFirstInsights(careers: seq<Career>, insights: seq<string>, k: nat)
    requires k < 2 && k < |insights|
    ensures Contains(Summary(careers, insights), insights[k])
  {
    var shown := insights[..Min(2, |insights|)];
    JoinContainsParts(shown, "; ", k);
    var head := Join(Labels(careers), "; ") + " | Insights: ";
    assert Summary(careers, insights) == head + Join(shown, "; ") + "";
    ContainsWithin(head, Join(shown, "; "), "", insights[k]);
  }

  // ------------------------------------------------------------ payloads

  /** The profile part shared by the step's three saves: the form as in
      `prepareDataForBackend`, except that the graduation field is the
      specialization when there is one, the work style is written
      "<environment> - <type>" and the other interests are not sent. */
  function ProfilePayload(f: FormData, chatbot: ChatbotPatch): (req: OnboardingRequest)
    ensures req.email == f.email && req.chatbot == Some(chatbot)
    ensures req.graduation.Some? && req.interests.Some?
    ensures req.graduation.value.field == if f.specialization != "" then f.specialization else f.degree
    ensures req.interests.value.workStyle == f.workStyleEnvironment + " - " + f.workStyleType
  {
    OnboardingRequest(
      f.email, f.clerkId,
      Some(Location(f.locality, f.district, f.state)),
      Some(Academic(f.board10, f.year10, f.percentage10, Some(f.is12Completed), f.stream12,
                    f.percentage12, f.subjects12)),
      Some(Graduation(Some(f.gradStatus == "Completed"),
                      if f.specialization != "" then f.specialization else f.degree,
                      f.college, f.gradYear, f.gradScore)),
      Some(Interests(f.interests, f.subjectScores, f.strengths,
                     f.workStyleEnvironment + " - " + f.workStyleType, "")),
      Some(chatbot))
  }

  /** The save after the prediction: the category and summary derived from
      the careers used (the reply's, else the ones kept in state), or the
      form's fallback and a fixed summary when there are none. */
  function PredictionPayload(f: FormData, apiCareers: seq<Career>, stateCareers: seq<Career>,
                             insights: seq<string>, sessionId: string): (req: OnboardingRequest)
    ensures var used := if |apiCareers| > 0 then apiCareers else stateCareers;
      req.chatbot.Some? && req.chatbot.value.topCareers == Some(used)
      && req.chatbot.value.careerPath ==
           (if |used| > 0 then CareerPath(used[0].name) else FallbackPath(f)).Name()
  {
    var used := if |apiCareers| > 0 then apiCareers else stateCareers;
    var category := if |used| > 0 then CareerPath(used[0].name) else FallbackPath(f);
    var summary := if |used| > 0 then Summary(used, insights)
                   else "Analysis complete. Recommendations based on your profile.";
    ProfilePayload(f, ChatbotPatch(category.Name(), summary, sessionId, Some(insights), Some(used), None))
  }

  /** The save of the "View Dashboard" button, with the narrow mapping. */
  function ViewDashboardPayload(f: FormData, careers: seq<Career>, insights: seq<string>,
                                sessionId: string): (req: OnboardingRequest)
    ensures req.chatbot.Some? && req.chatbot.value.topCareers == Some(careers)
    ensures req.chatbot.value.careerPath ==
      (if |careers| > 0 then ViewDashboardPath(careers[0].name) else SkillBased).Name()
  {
    var category := if |careers| > 0 then ViewDashboardPath(careers[0].name) else SkillBased;
    var summary := if |careers| > 0 then Summary(careers, insights)
                   else "Analysis complete based on your responses.";
    ProfilePayload(f, ChatbotPatch(category.Name(), summary, sessionId, Some(insights), Some(careers), None))
  }

  /** The save when the assessment service fails: both branches of its
      career-path conditional write 'Skill-Based Career'. */
  function FallbackPayload(f: FormData, careers: seq<Career>, insights: seq<string>,
                           sessionId: string): (req: OnboardingRequest)
    ensures req.chatbot.Some? && req.chatbot.value.careerPath == "Skill-Based Career"
    ensures req.chatbot.value.summary ==
      if |insights| > 0 then Join(insights, "; ") else "Chatbot API unavailable, using default recommendation"
  {
    var path := if |careers| > 0 then "Skill-Based Career" else "Skill-Based Career";
    var summary := if |insights| > 0 then Join(insights, "; ")
                   else "Chatbot API unavailable, using default recommendation";
    ProfilePayload(f, ChatbotPatch(path, summary, sessionId, Some(insights), Some(careers), None))
  }

  /** After the prediction saved an exam career as Degree-Based, clicking
      "View Dashboard" overwrites the stored path with Skill-Based. */
  lemma {:induction false} ButtonOverwritesExamPath(u: User, f: FormData, careers: seq<Career>,
                                                  insights: seq<string>, sessionId: string)
    requires |careers| > 0
    requires Contains(Lower(careers[0].name), "upsc")
    requires !ContainsAny(Lower(careers[0].name), DegreeWords)
    requires !ContainsAny(Lower(careers[0].name), ArtsWords)
    ensures Merge(u, PredictionPayload(f, careers, [], insights, sessionId)).chatbot.careerPath
            == "Degree-Based Career"
    ensures Merge(Merge(u, PredictionPayload(f, careers, [], insights, sessionId)),
                  ViewDashboardPayload(f, careers, insights, sessionId)).chatbot.careerPath
            == "Skill-Based Career"
  {
    ExamCareerPathsDiffer(careers[0].name);
  }

  /** A profile saved by this step reloads into the onboarding form with
      the work-style halves padded by the spaces around its '-', the
      specialization (if any) as the degree, and no other interests. */
  lemma {:induction false} StepFourSaveReloads(prev: FormData, f: FormData, chatbot: ChatbotPatch)
    requires '-' !in f.workStyleEnvironment && '-' !in f.workStyleType
    ensures var g := Flatten(prev, NewUser(ProfilePayload(f, chatbot)));
      g.workStyleEnvironment == f.workStyleEnvironment + " "
      && g.workStyleType == " " + f.workStyleType
      && g.degree == (if f.specialization != "" then f.specialization else f.degree)
      && g.otherInterests == ""
  {
    var env := f.workStyleEnvironment + " ";
    var typ := " " + f.workStyleType;
    assert f.workStyleEnvironment + " - " + f.workStyleType == env + ['-'] + typ;
    assert forall i :: 0 <= i < |env| ==> env[i] == '-' ==> i < |f.workStyleEnvironment|;
    assert '-' !in env;
    assert '-' !in typ;
    PiecesOfJoint(env, '-', typ);
  }

  // ------------------------------------------------------------ rendering

  datatype Message = Message(text: string, fromBot: bool, isKey: bool)

  /** What a message renders as: the recommendation line with its
      category, a translated key, or the text itself. */
  datatype Rendered = Recommendation(category: string) | Translated(key: string) | Plain(text: string)

  const RecommendationPrefix := "chat_recommendation:"

  /** `renderMessageText`: a recommendation shows the text after the first
      ':' (up to a second one). */
  function RenderMessageText(m: Message): (r: Rendered)
    ensures r.Recommendation? <==> StartsWith(m.text, RecommendationPrefix)
    ensures !r.Recommendation? ==> (r.Translated? <==> m.isKey)
  {
    if StartsWith(m.text, RecommendationPrefix) then
      var piece := SecondPiece(m.text, ':');
      Recommendation(if piece.Some? then piece.value else "")
    else if m.isKey then Translated(m.text)
    else Plain(m.text)
  }

  /** The recommendation message shows the category it was built with. */
  lemma {:induction false} RecommendationShowsCategory(c: Category)
    ensures RenderMessageText(Message(RecommendationPrefix + c.Name(), true, false))
            == Recommendation(c.Name())
  {
    var text := RecommendationPrefix + c.Name();
    assert text[..|RecommendationPrefix|] == RecommendationPrefix;
    assert text == "chat_recommendation" + [':'] + c.Name();
    assert ':' !in "chat_recommendation";
    assert ':' !in c.Name();
    PiecesOfJoint("chat_recommendation", ':', c.Name());
  }

  /** The risk line for the first career, shown whenever `risk !==
      undefined`: a `null` risk passes that test and, as `riskLevels[null]`
      is undefined, reads Medium. */
  function RiskMessage(c: Career): (r: Option<string>)
    ensures r.Some? <==> !c.risk.NoRisk?
    ensures c.risk.RiskLevel? ==> r == Some("Risk level: " + RiskLabel(c.risk.level))
    ensures c.risk.NullRisk? ==> r == Some("Risk level: Medium")
  {
    match c.risk
    case NoRisk => None
    case NullRisk => Some("Risk level: Medium")
    case RiskLevel(level) => Some("Risk level: " + RiskLabel(level))
  }

  // ------------------------------------------------------------ the chat

  /** The assessment service's answer to the start request; `StartFailed`
      covers an error status and a failed request. */
  datatype StartReply =
    | StartFailed
    | Started(success: bool, sessionId: string, question: string, questionId: string,
              insights: seq<string>, topCareers: seq<Career>)

  /** Its answer to a submitted answer. */
  datatype AnswerReply =
    | AnswerFailed
    | Answered(success: bool, isComplete: bool, question: string, questionId: string,
               insights: seq<string>, topCareers: seq<Career>)

  /** What the step does next: keep chatting, save the form and leave for
      the dashboard, or predict from the given careers and insights. */
  datatype Action = Stay | SaveAndRedirect | Predict(careers: seq<Career>, insights: seq<string>)

  /** The step's state variables. */
  datatype ChatState = ChatState(
    messages: seq<Message>,
    questionQueue: seq<string>,
    currentQuestionIndex: int,
    sessionId: string,
    insights: seq<string>,
    topCareers: seq<Career>)

  const InitialChat := ChatState([Message("chat_intro", true, true)], [], -1, "", [], [])

  /** The current question id is the last one queued. */
  predicate Tracking(st: ChatState) {
    st.currentQuestionIndex == |st.questionQueue| - 1
  }

  function CurrentQuestionId(st: ChatState): string {
    if 0 <= st.currentQuestionIndex < |st.questionQueue| then st.questionQueue[st.currentQuestionIndex]
    else ""
  }

  /** `initializeChatbot`: a successful start with a question records the
      session, queues the question id (if any), keeps non-empty insights and
      careers and shows the question; anything else saves and leaves. */
  function Start(st: ChatState, reply: StartReply): (r: (ChatState, Action))
    ensures r.1 == Stay <==> reply.Started? && reply.success && reply.question != ""
    ensures r.1 != Stay ==> r == (st, SaveAndRedirect)
  {
    if reply.StartFailed? || !reply.success || reply.question == "" then (st, SaveAndRedirect)
    else
      var queued := if reply.questionId != "" then st.(questionQueue := [reply.questionId], currentQuestionIndex := 0) else st;
      (queued.(
        sessionId := reply.sessionId,
        insights := if |reply.insights| > 0 then reply.insights else st.insights,
        topCareers := if |reply.topCareers| > 0 then reply.topCareers else st.topCareers,
        messages := st.messages + [Message(reply.question, true, false)]),
       Stay)
  }

  /** `handleSend` on the answer typed in `input`. A blank answer does
      nothing. Otherwise the trimmed answer is shown, and without a session
      or a current question id, or when the service fails, the step saves
      and leaves. A completed assessment appends its insights, replaces the
      careers when it sends some, and predicts; the prediction is handed the
      insights as they were before this answer, since the scheduled callback
      reads the state of the render that started it. A further question is
      queued (with its id) and shown. */
  function Send(st: ChatState, input: string, reply: AnswerReply): (r: (ChatState, Action))
    ensures CleanText.Trim(input) == "" ==> r == (st, Stay)
    ensures CleanText.Trim(input) != "" ==>
      |r.0.messages| >= |st.messages| + 1
      && r.0.messages[..|st.messages| + 1] == st.messages + [Message(CleanText.Trim(input), false, false)]
  {
    var answer := CleanText.Trim(input);
    if answer == "" then (st, Stay)
    else
      var shown := st.(messages := st.messages + [Message(answer, false, false)]);
      if st.sessionId == "" || CurrentQuestionId(st) == "" || reply.AnswerFailed? then (shown, SaveAndRedirect)
      else if !reply.success then (shown, Stay)
      else
        var grown := if |reply.insights| > 0 then shown.insights + reply.insights else shown.insights;
        var careers := if |reply.topCareers| > 0 then reply.topCareers else shown.topCareers;
        if reply.isComplete then
          (shown.(insights := grown, topCareers := careers), Predict(reply.topCareers, st.insights))
        else if reply.question != "" then
          var queued := if reply.questionId != ""
                        then shown.(questionQueue := shown.questionQueue + [reply.questionId],
                                    currentQuestionIndex := shown.currentQuestionIndex + 1)
                        else shown;
          var asked := queued.(insights := grown,
                               messages := shown.messages + [Message(reply.question, true, false)]);
          assert asked.messages[..|st.messages| + 1] == shown.messages;
          (asked.(topCareers := careers), Stay)
        else (shown, Stay)
  }

  /** The queue bookkeeping holds from the start and through every start
      and answer: the current question is always the last one queued. */
  lemma {:induction false} ChatKeepsTracking(st: ChatState, input: string, sr: StartReply, ar: AnswerReply)
    requires Tracking(st)
    ensures Tracking(InitialChat)
    ensures Tracking(Start(st, sr).0)
    ensures Tracking(Send(st, input, ar).0)
  {
  }

  /** Each answer grows the queue by at most one id, and insights are only
      ever appended to. */
  lemma {:induction false} SendOnlyAppends(st: ChatState, input: string, reply: AnswerReply)
    ensures var s := Send(st, input, reply).0;
      |st.questionQueue| <= |s.questionQueue| <= |st.questionQueue| + 1
      && s.questionQueue[..|st.questionQueue|] == st.questionQueue
      && |st.insights| <= |s.insights|
      && s.insights[..|st.insights|] == st.insights
  {
    var s := Send(st, input, reply).0;
    assert s.questionQueue == st.questionQueue || s.questionQueue == st.questionQueue + [reply.questionId];
    assert s.insights == st.insights || s.insights == st.insights + reply.insights;
  }

  /** The insights that came with the final answer are kept in the step's
      state but not handed to the prediction, so they are missing from the
      saved summary and insights. */
  lemma {:induction false} FinalInsightsMissThePrediction(st: ChatState, input: string, reply: AnswerReply)
    requires CleanText.Trim(input) != "" && st.sessionId != "" && CurrentQuestionId(st) != ""
    requires reply.Answered? && reply.success && reply.isComplete && |reply.insights| > 0
    ensures Send(st, input, reply).1 == Predict(reply.topCareers, st.insights)
    ensures Send(st, input, reply).0.insights == st.insights + reply.insights
    ensures Send(st, input, reply).1.insights != Send(st, input, reply).0.insights
  {
  }

  /** The step as evidently intended: the prediction sees the insights of
      the final answer too. */
  function SendIntended(st: ChatState, input: string, reply: AnswerReply): (r: (ChatState, Action))
    ensures r.0 == Send(st, input, reply).0
    ensures r.1.Predict? ==> r.1.insights == r.0.insights
  {
    var (after, action) := Send(st, input, reply);
    if action.Predict? then (after, Predict(action.careers, after.insights)) else (after, action)
  }

  /** With the intended hand-over every insight the service sent is in the
      prediction's payload. */
  lemma {:induction false} IntendedPredictionKeepsAllInsights(st: ChatState, input: string, reply: AnswerReply,
                                                              f: FormData)
    requires SendIntended(st, input, reply).1.Predict?
    ensures var a := SendIntended(st, input, reply);
      PredictionPayload(f, a.1.careers, a.0.topCareers, a.1.insights, st.sessionId).chatbot.value.insights
        == Some(st.insights + (if reply.Answered? && |reply.insights| > 0 then reply.insights else []))
  {
    var a := SendIntended(st, input, reply);
    PredictionSendsAllInsights(st, input, reply);
    assert a.1.insights == Send(st, input, reply).0.insights;
    var used := if |a.1.careers| > 0 then a.1.careers else a.0.topCareers;
    var category := if |used| > 0 then CareerPath(used[0].name) else FallbackPath(f);
    var summary := if |used| > 0 then Summary(used, a.1.insights)
                   else "Analysis complete. Recommendations based on your profile.";
    assert PredictionPayload(f, a.1.careers, a.0.topCareers, a.1.insights, st.sessionId)
      == ProfilePayload(f, ChatbotPatch(category.Name(), summary, st.sessionId, Some(a.1.insights), Some(used), None));
  }

  /** A completed answer leaves the step holding every insight sent. */
  lemma {:induction false} PredictionSendsAllInsights(st: ChatState, input: string, reply: AnswerReply)
    requires Send(st, input, reply).1.Predict?
    ensures Send(st, input, reply).0.insights
      == st.insights + (if reply.Answered? && |reply.insights| > 0 then reply.insights else [])
  {
    if !(reply.Answered? && |reply.insights| > 0) {
      assert st.insights + [] == st.insights;
    }
  }

  /** The step component, holding `ChatState`'s variables. */
  class ChatbotStep {
    var messages: seq<Message>
    var questionQueue: seq<string>
    var currentQuestionIndex: int
    var sessionId: string
    var insights: seq<string>
    var topCareers: seq<Career>

    function State(): ChatState
      reads this
    {
      ChatState(messages, questionQueue, currentQuestionIndex, sessionId, insights, topCareers)
    }

    constructor()
      ensures State() == InitialChat
    {
      messages := [Message("chat_intro", true, true)];
      questionQueue := [];
      currentQuestionIndex := -1;
      sessionId := "";
      insights := [];
      topCareers := [];
    }

    method Initialize(reply: StartReply) returns (action: Action)
      modifies this
      ensures (State(), action) == Start(old(State()), reply)
    {
      if reply.StartFailed? || !reply.success || reply.question == "" {
        return SaveAndRedirect;
      }
      sessionId := reply.sessionId;
      if reply.questionId != "" {
        questionQueue := [reply.questionId];
        currentQuestionIndex := 0;
      }
      if |reply.insights| > 0 {
        insights := reply.insights;
      }
      if |reply.topCareers| > 0 {
        topCareers := reply.topCareers;
      }
      messages := messages + [Message(reply.question, true, false)];
      action := Stay;
    }

    method HandleSend(input: string, reply: AnswerReply) returns (action: Action)
      modifies this
      ensures (State(), action) == Send(old(State()), input, reply)
    {
      var answer := CleanText.Trim(input);
      if answer == "" {
        return Stay;
      }
      messages := messages + [Message(answer, false, false)];
      if sessionId == "" {
        return SaveAndRedirect;
      }
      var questionId := if 0 <= currentQuestionIndex < |questionQueue| then questionQueue[currentQuestionIndex] else "";
      if questionId == "" || reply.AnswerFailed? {
        return SaveAndRedirect;
      }
      if !reply.success {
        return Stay;
      }
      if reply.isComplete {
        var seen := insights;
        if |reply.insights| > 0 {
          insights := insights + reply.insights;
        }
        if |reply.topCareers| > 0 {
          topCareers := reply.topCareers;
        }
        return Predict(reply.topCareers, seen);
      }
      if reply.question != "" {
        if |reply.insights| > 0 {
          insights := insights + reply.insights;
        }
        if reply.questionId != "" {
          questionQueue := questionQueue + [reply.questionId];
          currentQuestionIndex := currentQuestionIndex + 1;
        }
        messages := messages + [Message(reply.question, true, false)];
        if |reply.topCareers| > 0 {
          topCareers := reply.topCareers;
        }
      }
      action := Stay;
    }
  }
}
