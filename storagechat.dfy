/** The stored-chat endpoints: starting (or resuming) a chat session with a
    welcome line, recording answers, and the rule-based responder that
    answers from the asker's profile. The profiles are read-only here; the
    chat sessions and logged answers are a store the handlers update. Fresh
    session ids come from the clock and a random source, so their suffix is
    a parameter. */
module StorageChatbot {
  import opened Wrappers
  import opened Strings
  import opened Models
  import opened UserRoutes

  // ------------------------------------------------------------ records

  datatype SessionProfile = SessionProfile(name: string, district: string, level: string)

  datatype Session = Session(
    sessionId: string,
    userId: string,
    email: string,
    phase: string,
    isComplete: bool,
    profile: SessionProfile,
    totalMessages: nat)

  /** A logged answer. */
  datatype LoggedAnswer = LoggedAnswer(sessionId: string, userId: string, answer: string, phase: string)

  /** Session ids are unique (the collection's unique index), every session
      has an id and a user, and this route keeps one session per user. */
  ghost predicate SessionsValid(ss: seq<Session>) {
    (forall i :: 0 <= i < |ss| ==> ss[i].sessionId != "" && ss[i].userId != "")
    && (forall i, j :: 0 <= i < j < |ss| ==> ss[i].sessionId != ss[j].sessionId && ss[i].userId != ss[j].userId)
  }

  // ------------------------------------------------------------ lookups

  /** The three `findOne` filters the handlers use on sessions. */
  datatype Filter = BySessionId(sessionId: string) | ByUserId(userId: string) | ByUserOrEmail(id: string)

  predicate Matches(s: Session, f: Filter) {
    match f
    case BySessionId(id) => s.sessionId == id
    case ByUserId(id) => s.userId == id
    case ByUserOrEmail(id) => s.userId == id || s.email == id
  }

  /** `findOne`: the position of the first session the filter matches. */
  function Find(ss: seq<Session>, f: Filter): (r: Option<nat>)
    ensures r.Some? ==> r.value < |ss| && Matches(ss[r.value], f)
    ensures r.Some? ==> forall j :: 0 <= j < r.value ==> !Matches(ss[j], f)
    ensures r.None? <==> forall j :: 0 <= j < |ss| ==> !Matches(ss[j], f)
  {
    if ss == [] then None
    else if Matches(ss[0], f) then Some(0)
    else
      var r := Find(ss[1..], f);
      assert forall j :: 1 <= j < |ss| ==> ss[j] == ss[1..][j - 1];
      if r.Some? then Some(r.value + 1) else None
  }

  /** `User.findOne({ clerkId: id })`; the clerkId index makes the match
      unique, and no profile is stored under an empty clerkId. */
  function FindByClerkId(users: map<string, User>, id: string): (r: Option<User>)
    requires StoreValid(users)
    ensures r.Some? <==> id != "" && exists e :: e in users && users[e].clerkId == id
    ensures r.Some? ==> r.value.clerkId == id && r.value.email in users && users[r.value.email] == r.value
  {
    if id != "" && exists e :: e in users && users[e].clerkId == id then
      var e :| e in users && users[e].clerkId == id;
      Some(users[e])
    else None
  }

  /** `User.findOne({ email: e })`. */
  function FindByEmail(users: map<string, User>, e: string): (r: Option<User>)
    ensures r.Some? <==> e in users
    ensures r.Some? ==> r.value == users[e]
  {
    if e in users then Some(users[e]) else None
  }

  function Either(a: Option<User>, b: Option<User>): (r: Option<User>)
    ensures r.Some? <==> a.Some? || b.Some?
  {
    if a.Some? then a else b
  }

  /** The start route's profile lookup: an id with '@' is an e-mail;
      anything else is tried as a clerkId, then as an e-mail. */
  function StartUser(users: map<string, User>, userId: string): (r: Option<User>)
    requires StoreValid(users)
    ensures '@' in userId ==> r == FindByEmail(users, userId)
    ensures r.Some? ==> r.value.email in users && users[r.value.email] == r.value
  {
    if '@' in userId then FindByEmail(users, userId)
    else Either(FindByClerkId(users, userId), FindByEmail(users, userId))
  }

  // ------------------------------------------------------------ start

  /** The welcome line: about the first top career, about the first
      interests, or the default greeting; `WelcomeText` renders it. */
  datatype Greeting = CareerGreeting(name: string) | InterestGreeting(interests: seq<string>) | DefaultGreeting

  function Location(u: User): string {
    if DistrictOf(u) != "" then DistrictOf(u) else StateOf(u)
  }

  /** The welcome chosen from the profile: the first top career (or "career
      guidance" when it has no name), else the first two interests, else
      the default greeting. */
  function Greet(u: Option<User>): (g: Greeting)
    ensures u.None? ==> g == DefaultGreeting
    ensures u.Some? && |u.value.chatbot.topCareers| > 0 ==>
      var name := u.value.chatbot.topCareers[0].name;
      g == CareerGreeting(if name != "" then name else "career guidance")
    ensures u.Some? && |u.value.chatbot.topCareers| == 0 && |SelectedInterests(u.value)| > 0 ==>
      g == InterestGreeting(SelectedInterests(u.value)[..Min(2, |SelectedInterests(u.value)|)])
    ensures u.Some? && |u.value.chatbot.topCareers| == 0 && |SelectedInterests(u.value)| == 0 ==>
      g == DefaultGreeting
  {
    if u.None? then DefaultGreeting
    else if |u.value.chatbot.topCareers| > 0 then
      var name := u.value.chatbot.topCareers[0].name;
      CareerGreeting(if name != "" then name else "career guidance")
    else if |SelectedInterests(u.value)| > 0 then
      var xs := SelectedInterests(u.value);
      InterestGreeting(xs[..Min(2, |xs|)])
    else DefaultGreeting
  }

  /** The welcome text names the career or the interests it was built from. */
  function WelcomeText(g: Greeting): (t: string)
    ensures g.CareerGreeting? ==> Contains(t, g.name)
    ensures g.InterestGreeting? ==> forall k :: 0 <= k < |g.interests| ==> Contains(t, g.interests[k])
  {
    match g
    case CareerGreeting(name) =>
      Mentions("Welcome back! I see you're interested in ", name, ". What would you like to know more about?");
      "Welcome back! I see you're interested in " + name + ". What would you like to know more about?"
    case InterestGreeting(xs) =>
      var listed := Join(xs, " and ");
      var head := "Hello! I notice you're interested in ";
      var tail := ". How can I help you explore career options?";
      forall k | 0 <= k < |xs|
        ensures Contains(head + listed + tail, xs[k])
      {
        JoinContainsParts(xs, " and ", k);
        ContainsWithin(head, listed, tail, xs[k]);
      }
      head + listed + tail
    case DefaultGreeting =>
      "Hello! I'm your personal career advisor. How can I help you today?"
  }

  function Min(a: nat, b: nat): nat {
    if a < b then a else b
  }

  /** The profile copied into a new session: the district (or "Unknown")
      and the level from whether 12th is completed. The stored profile has
      no first name, so the name is always empty. */
  function NewProfile(u: Option<User>): (r: SessionProfile)
    ensures r.name == ""
    ensures r.level == "12th" <==> u.Some? && u.value.academic.Some? && u.value.academic.value.is12Completed == Some(true)
    ensures r.district == "Unknown" || (u.Some? && r.district == DistrictOf(u.value))
  {
    if u.None? then SessionProfile("", "Unknown", "10th")
    else
      var d := DistrictOf(u.value);
      var completed := u.value.academic.Some? && u.value.academic.value.is12Completed == Some(true);
      SessionProfile("", if d != "" then d else "Unknown", if completed then "12th" else "10th")
  }

  datatype StartReply = StartReply(sessionId: string, message: Greeting, profile: SessionProfile,
                                   phase: string, isComplete: bool)

  /** The session created for a user: its e-mail is the user id when that
      has an '@', else the profile's. */
  function NewSession(users: map<string, User>, userId: string, suffix: string): (s: Session)
    requires StoreValid(users)
    ensures s.sessionId == "storage_" + suffix && s.userId == userId && s.totalMessages == 0
  {
    var u := StartUser(users, userId);
    var email := if '@' in userId then userId else if u.Some? then u.value.email else "";
    Session("storage_" + suffix, userId, email, "phase_1", false, NewProfile(u), 0)
  }

  /** `POST /storage/start/:userId`: the user's session is reused when one
      exists; otherwise one is created under "storage_" + suffix. Creating
      fails with 500, changing nothing, when the id is taken (the unique
      index) or the user id is empty (a required field). */
  function Start(users: map<string, User>, ss: seq<Session>, userId: string, suffix: string)
    : (r: (Result<StartReply, Status>, seq<Session>))
    requires StoreValid(users)
    ensures r.0.Failure? ==> r.0.error == ServerError && r.1 == ss
    ensures r.0.Success? ==> r.0.value.message == Greet(StartUser(users, userId))
    ensures r.0.Success? ==> exists i :: 0 <= i < |r.1| && r.1[i].userId == userId
                                        && r.1[i].sessionId == r.0.value.sessionId
    ensures r.1 != ss ==>
      && userId != ""
      && Find(ss, ByUserId(userId)).None?
      && Find(ss, BySessionId("storage_" + suffix)).None?
      && r.1 == ss + [NewSession(users, userId, suffix)]
  {
    var u := StartUser(users, userId);
    var found := Find(ss, ByUserId(userId));
    if found.Some? then
      var s := ss[found.value];
      (Success(StartReply(s.sessionId, Greet(u), s.profile, s.phase, s.isComplete)), ss)
    else
      var id := "storage_" + suffix;
      if userId == "" || Find(ss, BySessionId(id)).Some? then (Failure(ServerError), ss)
      else
        var s := NewSession(users, userId, suffix);
        assert (ss + [s])[|ss|] == s;
        (Success(StartReply(id, Greet(u), s.profile, s.phase, s.isComplete)), ss + [s])
  }

  /** Starting again for a user resumes their session: the same id, and no
      session is added or changed. */
  lemma StartReusesSession(users: map<string, User>, ss: seq<Session>, userId: string, suffix: string, i: nat)
    requires StoreValid(users) && SessionsValid(ss)
    requires i < |ss| && ss[i].userId == userId
    ensures Start(users, ss, userId, suffix).1 == ss
    ensures Start(users, ss, userId, suffix).0 == Success(StartReply(ss[i].sessionId,
      Greet(StartUser(users, userId)), ss[i].profile, ss[i].phase, ss[i].isComplete))
  {
    var found := Find(ss, ByUserId(userId));
    assert found.Some?;
  }

  /** Starting keeps the sessions valid, and at most one session is added. */
  lemma StartKeepsSessionsValid(users: map<string, User>, ss: seq<Session>, userId: string, suffix: string)
    requires StoreValid(users) && SessionsValid(ss)
    ensures SessionsValid(Start(users, ss, userId, suffix).1)
    ensures var after := Start(users, ss, userId, suffix).1;
      after == ss || (|after| == |ss| + 1 && after[..|ss|] == ss)
  {
    var after := Start(users, ss, userId, suffix).1;
    if after != ss {
      var s := NewSession(users, userId, suffix);
      assert after[..|ss|] == ss && after[|ss|] == s;
      forall i | 0 <= i < |ss|
        ensures ss[i].sessionId != s.sessionId && ss[i].userId != s.userId
      {
        assert !Matches(ss[i], ByUserId(userId));
        assert !Matches(ss[i], BySessionId(s.sessionId));
      }
    }
  }

  /** Two starts for the same user give the same session id, whatever
      fresh suffixes they draw. */
  lemma {:induction false} StartTwiceSameSession(users: map<string, User>, ss: seq<Session>, userId: string,
                                                 s1: string, s2: string)
    requires StoreValid(users) && SessionsValid(ss)
    requires Start(users, ss, userId, s1).0.Success?
    ensures var (first, after) := Start(users, ss, userId, s1);
      Start(users, after, userId, s2) == (first, after)
  {
    var (first, after) := Start(users, ss, userId, s1);
    StartKeepsSessionsValid(users, ss, userId, s1);
    var i :| 0 <= i < |after| && after[i].userId == userId && after[i].sessionId == first.value.sessionId;
    StartReusesSession(users, after, userId, s2, i);
    var found := Find(ss, ByUserId(userId));
    if found.Some? {
      StartReusesSession(users, ss, userId, s1, found.value);
    } else {
      assert i == |ss|;
    }
  }

  // ------------------------------------------------------------ answers

  datatype AnswerRequest = AnswerRequest(sessionId: string, answer: string, userId: string, email: string)

  /** The reply; its message is sent as `Text(message)`. */
  datatype AnswerReply = AnswerReply(sessionId: string, message: Response, phase: string, isComplete: bool)

  /** `userId || email || (sessionId ? null : 'unknown')`, with null as "". */
  function Identifier(req: AnswerRequest): (r: string)
    ensures r == "" <==> req.userId == "" && req.email == "" && req.sessionId != ""
  {
    if req.userId != "" then req.userId
    else if req.email != "" then req.email
    else if req.sessionId != "" then ""
    else "unknown"
  }

  /** The answer's session: by its id, else by the identifier as a user id
      or e-mail. */
  function AnswerSession(ss: seq<Session>, req: AnswerRequest): (r: Option<nat>)
    ensures r.Some? ==> r.value < |ss|
  {
    var bySession := if req.sessionId != "" then Find(ss, BySessionId(req.sessionId)) else None;
    if bySession.None? && Identifier(req) != "" then Find(ss, ByUserOrEmail(Identifier(req)))
    else bySession
  }

  /** The asker's profile: by the e-mail, else the user id as e-mail or
      clerkId, else from the session. */
  function AnswerUser(users: map<string, User>, ss: seq<Session>, req: AnswerRequest): (r: Option<User>)
    requires StoreValid(users)
  {
    var si := AnswerSession(ss, req);
    if req.email != "" then FindByEmail(users, req.email)
    else if req.userId != "" then Either(FindByEmail(users, req.userId), FindByClerkId(users, req.userId))
    else if si.Some? then Either(FindByEmail(users, ss[si.value].email), FindByClerkId(users, ss[si.value].userId))
    else None
  }

  /** The log entry's user: `userId || email || session?.userId || userIdentifier`. */
  function LogUser(ss: seq<Session>, req: AnswerRequest): string {
    var si := AnswerSession(ss, req);
    if req.userId != "" then req.userId
    else if req.email != "" then req.email
    else if si.Some? && ss[si.value].userId != "" then ss[si.value].userId
    else Identifier(req)
  }

  /** The sessions after one more message on the found one. */
  function Counted(ss: seq<Session>, si: Option<nat>): (r: seq<Session>)
    requires si.Some? ==> si.value < |ss|
    ensures |r| == |ss|
    ensures forall j :: 0 <= j < |ss| && !(si.Some? && j == si.value) ==> r[j] == ss[j]
    ensures si.Some? ==> r[si.value] == ss[si.value].(totalMessages := ss[si.value].totalMessages + 1)
  {
    if si.Some? then ss[si.value := ss[si.value].(totalMessages := ss[si.value].totalMessages + 1)] else ss
  }

  /** `POST /storage/answer`. An empty answer is refused with 400. When a
      session id is given or a session is found, the answer is logged and a
      found session counts one more message; the log entry needs a user id,
      so a stale session id sent without user id or e-mail ends in 500. The
      reply comes from the responder. */
  function Submit(users: map<string, User>, ss: seq<Session>, log: seq<LoggedAnswer>, req: AnswerRequest)
    : (r: (Result<AnswerReply, Status>, seq<Session>, seq<LoggedAnswer>))
    requires StoreValid(users)
    ensures req.answer == "" ==> r == (Failure(BadRequest), ss, log)
    ensures r.0.Failure? ==> r.1 == ss && r.2 == log
    ensures r.0.Success? ==> r.0.value.message == Personalized(req.answer, AnswerUser(users, ss, req))
    ensures r.1 == ss || (AnswerSession(ss, req).Some? && r.1 == Counted(ss, AnswerSession(ss, req)))
  {
    if req.answer == "" then (Failure(BadRequest), ss, log)
    else
      var si := AnswerSession(ss, req);
      var message := Personalized(req.answer, AnswerUser(users, ss, req));
      var phase := if si.Some? && ss[si.value].phase != "" then ss[si.value].phase else "phase_1";
      var complete := si.Some? && ss[si.value].isComplete;
      var replyId := if req.sessionId != "" then req.sessionId else if si.Some? then ss[si.value].sessionId else "";
      var reply := AnswerReply(replyId, message, phase, complete);
      if req.sessionId == "" && si.None? then (Success(reply), ss, log)
      else
        var who := LogUser(ss, req);
        if who == "" then (Failure(ServerError), ss, log)
        else (Success(reply), Counted(ss, si), log + [LoggedAnswer(replyId, who, req.answer, phase)])
  }

  /** An accepted answer for a found session counts exactly one more message
      on that session, leaves every other session as it was, and logs the
      answer once. */
  lemma SubmitCountsOneMessage(users: map<string, User>, ss: seq<Session>, log: seq<LoggedAnswer>,
                               req: AnswerRequest)
    requires StoreValid(users) && SessionsValid(ss)
    requires Submit(users, ss, log, req).0.Success? && AnswerSession(ss, req).Some?
    ensures var (_, after, log2) := Submit(users, ss, log, req);
      var i := AnswerSession(ss, req).value;
      |after| == |ss| && after[i].totalMessages == ss[i].totalMessages + 1
      && after[i] == ss[i].(totalMessages := after[i].totalMessages)
      && (forall j :: 0 <= j < |ss| && j != i ==> after[j] == ss[j])
      && log2 == log + [LoggedAnswer(if req.sessionId != "" then req.sessionId else ss[i].sessionId,
                                     LogUser(ss, req), req.answer, if ss[i].phase != "" then ss[i].phase else "phase_1")]
  {
  }

  /** An answer with no session id that finds no session is answered but
      neither logged nor counted. */
  lemma UnmatchedAnswerIsNotLogged(users: map<string, User>, ss: seq<Session>, log: seq<LoggedAnswer>,
                                   req: AnswerRequest)
    requires StoreValid(users)
    requires req.answer != "" && req.sessionId == "" && AnswerSession(ss, req).None?
    ensures Submit(users, ss, log, req).0.Success?
    ensures Submit(users, ss, log, req).1 == ss && Submit(users, ss, log, req).2 == log
  {
  }

  /** A session id that matches nothing, sent without user id or e-mail,
      leaves the log entry without its required user and ends in 500. */
  lemma StaleSessionWithoutIdentityFails(users: map<string, User>, ss: seq<Session>, log: seq<LoggedAnswer>,
                                         req: AnswerRequest)
    requires StoreValid(users)
    requires req.answer != "" && req.sessionId != "" && req.userId == "" && req.email == ""
    requires Find(ss, BySessionId(req.sessionId)).None?
    ensures Submit(users, ss, log, req) == (Failure(ServerError), ss, log)
  {
  }

  /** Answers never add or remove sessions, and keep them valid. */
  lemma SubmitKeepsSessionsValid(users: map<string, User>, ss: seq<Session>, log: seq<LoggedAnswer>,
                                 req: AnswerRequest)
    requires StoreValid(users) && SessionsValid(ss)
    ensures SessionsValid(Submit(users, ss, log, req).1)
    ensures |Submit(users, ss, log, req).1| == |ss|
  {
    var after := Submit(users, ss, log, req).1;
    assert forall j :: 0 <= j < |ss| ==> after[j].sessionId == ss[j].sessionId && after[j].userId == ss[j].userId;
  }

  /** The session and answer store, updated in place by the handlers. */
  class ChatStorage {
    var sessions: seq<Session>
    var answers: seq<LoggedAnswer>

    ghost predicate Valid()
      reads this
    {
      SessionsValid(sessions)
    }

    constructor()
      ensures sessions == [] && answers == [] && Valid()
    {
      sessions := [];
      answers := [];
    }

    method StartSession(users: map<string, User>, userId: string, suffix: string)
      returns (reply: Result<StartReply, Status>)
      requires StoreValid(users) && Valid()
      modifies this
      ensures Valid()
      ensures (reply, sessions) == Start(users, old(sessions), userId, suffix)
      ensures answers == old(answers)
    {
      StartKeepsSessionsValid(users, sessions, userId, suffix);
      var user := StartUser(users, userId);
      var found := Find(sessions, ByUserId(userId));
      if found.None? {
        var id := "storage_" + suffix;
        if userId == "" || Find(sessions, BySessionId(id)).Some? {
          return Failure(ServerError);
        }
        sessions := sessions + [NewSession(users, userId, suffix)];
        found := Some(|sessions| - 1);
      }
      var s := sessions[found.value];
      reply := Success(StartReply(s.sessionId, Greet(user), s.profile, s.phase, s.isComplete));
    }

    method SubmitAnswer(users: map<string, User>, req: AnswerRequest) returns (reply: Result<AnswerReply, Status>)
      requires StoreValid(users) && Valid()
      modifies this
      ensures Valid()
      ensures (reply, sessions, answers) == Submit(users, old(sessions), old(answers), req)
    {
      SubmitKeepsSessionsValid(users, sessions, answers, req);
      reply := Failure(BadRequest);
      if req.answer == "" {
        return;
      }
      var si := AnswerSession(sessions, req);
      var message := Personalized(req.answer, AnswerUser(users, sessions, req));
      var phase := if si.Some? && sessions[si.value].phase != "" then sessions[si.value].phase else "phase_1";
      var complete := si.Some? && sessions[si.value].isComplete;
      var replyId := if req.sessionId != "" then req.sessionId
                     else if si.Some? then sessions[si.value].sessionId else "";
      if req.sessionId != "" || si.Some? {
        var who := LogUser(sessions, req);
        if who == "" {
          reply := Failure(ServerError);
          return;
        }
        answers := answers + [LoggedAnswer(replyId, who, req.answer, phase)];
        if si.Some? {
          var i := si.value;
          sessions := sessions[i := sessions[i].(totalMessages := sessions[i].totalMessages + 1)];
        }
      }
      reply := Success(AnswerReply(replyId, message, phase, complete));
    }
  }

  // ------------------------------------------------------------ responder

  /** What the responder answers with; `Text` renders it. */
  datatype Response =
    | CareerPick(top: Career, insight: Option<string>)
    | PathPick(path: string, interests: seq<string>)
    | SkillTips(strengths: seq<string>, interest: Option<string>)
    | LocalTips(location: string, stream: string)
    | InterestTips(interests: seq<string>, suggestion: Option<string>)
    | EducationTips(stream: string, field: string)
    | SalaryInfo
    | NextSteps(suggestion: Option<string>)
    | HelpOffer
    | DefaultReply

  const CareerWords := ["career", "job", "profession"]
  const SkillWords := ["skill", "learn", "study"]
  const PlaceWords := ["location", "place", "city", "area"]
  const InterestWords := ["interest", "like", "enjoy"]
  const EducationWords := ["education", "degree", "course", "college"]
  const SalaryWords := ["salary", "income", "earn"]
  const NextWords := ["future", "next", "step"]
  const HelpWords := ["help", "advice", "guidance"]

  function FieldOf(u: User): string {
    if u.graduation.Some? then u.graduation.value.field else ""
  }

  function FirstOr(xs: seq<string>): Option<string> {
    if |xs| > 0 then Some(xs[0]) else None
  }

  // Each topic answers only when its words occur and the profile holds its data.
  predicate CareerAnswers(q: string, u: User) {
    ContainsAny(q, CareerWords) && (|u.chatbot.topCareers| > 0 || u.chatbot.careerPath != "")
  }

  predicate SkillAnswers(q: string, u: User) {
    ContainsAny(q, SkillWords) && |Strengths(u)| > 0
  }

  predicate PlaceAnswers(q: string, u: User) {
    ContainsAny(q, PlaceWords) && Location(u) != ""
  }

  predicate InterestAnswers(q: string, u: User) {
    ContainsAny(q, InterestWords) && |SelectedInterests(u)| > 0
  }

  predicate EducationAnswers(q: string, u: User) {
    ContainsAny(q, EducationWords) && Stream(u) != ""
  }

  /** `generateGeneralResponse`: salary, then next steps (naming the first
      top career when there is one), then help, then the default. */
  function General(q: string, careers: seq<Career>): (r: Response)
    ensures r == SalaryInfo <==> ContainsAny(q, SalaryWords)
    ensures r.NextSteps? <==> !ContainsAny(q, SalaryWords) && ContainsAny(q, NextWords)
    ensures r.NextSteps? ==> (r.suggestion.Some? <==> |careers| > 0)
    ensures r.NextSteps? && |careers| > 0 ==> r.suggestion == Some(careers[0].name)
    ensures r == HelpOffer <==>
      !ContainsAny(q, SalaryWords) && !ContainsAny(q, NextWords) && ContainsAny(q, HelpWords)
    ensures r == SalaryInfo || r.NextSteps? || r == HelpOffer || r == DefaultReply
  {
    if ContainsAny(q, SalaryWords) then SalaryInfo
    else if ContainsAny(q, NextWords) then NextSteps(if |careers| > 0 then Some(careers[0].name) else None)
    else if ContainsAny(q, HelpWords) then HelpOffer
    else DefaultReply
  }

  /** `generatePersonalizedResponse` on the lower-cased question: without a
      profile the general responder answers; with one the topics are tried
      in the order career, skills, location, interests, education, each
      answering only when the profile has its data, and the general
      responder (knowing the top careers) answers the rest. */
  function Personalized(question: string, user: Option<User>): (r: Response)
    ensures user.None? ==> r == General(Lower(question), [])
    ensures user.Some? ==>
      var q := Lower(question);
      var u := user.value;
      && ((r.CareerPick? || r.PathPick?) <==> CareerAnswers(q, u))
      && (r.SkillTips? <==> !CareerAnswers(q, u) && SkillAnswers(q, u))
      && (r.LocalTips? <==> !CareerAnswers(q, u) && !SkillAnswers(q, u) && PlaceAnswers(q, u))
      && (r.InterestTips? <==> !CareerAnswers(q, u) && !SkillAnswers(q, u) && !PlaceAnswers(q, u)
                               && InterestAnswers(q, u))
      && (r.EducationTips? <==> !CareerAnswers(q, u) && !SkillAnswers(q, u) && !PlaceAnswers(q, u)
                                && !InterestAnswers(q, u) && EducationAnswers(q, u))
      && ((!CareerAnswers(q, u) && !SkillAnswers(q, u) && !PlaceAnswers(q, u) && !InterestAnswers(q, u)
           && !EducationAnswers(q, u)) ==> r == General(q, u.chatbot.topCareers))
  {
    var q := Lower(question);
    if user.None? then General(q, [])
    else
      var u := user.value;
      if CareerAnswers(q, u) then
        if |u.chatbot.topCareers| > 0 then CareerPick(u.chatbot.topCareers[0], FirstOr(u.chatbot.insights))
        else PathPick(u.chatbot.careerPath, SelectedInterests(u))
      else if SkillAnswers(q, u) then SkillTips(Strengths(u), FirstOr(SelectedInterests(u)))
      else if PlaceAnswers(q, u) then LocalTips(Location(u), Stream(u))
      else if InterestAnswers(q, u) then
        InterestTips(SelectedInterests(u),
                     if |u.chatbot.topCareers| > 0 then Some(u.chatbot.topCareers[0].name) else None)
      else if EducationAnswers(q, u) then EducationTips(Stream(u), FieldOf(u))
      else General(q, u.chatbot.topCareers)
  }

  function FirstThree(xs: seq<string>): string {
    Join(xs[..Min(3, |xs|)], ", ")
  }

  /** The career recommendation: the career, its salary when known, and
      the first insight or a fixed closing sentence. */
  function CareerPickText(c: Career, insight: Option<string>): (t: string)
    ensures Contains(t, c.name)
    ensures insight.Some? ==> Contains(t, insight.value)
  {
    var head := "Based on your profile, I'd recommend exploring ";
    var salary := if c.salary != "" then "The salary range is typically " + c.salary + ". " else "";
    var closing := if insight.Some? then insight.value else "This aligns well with your interests and skills.";
    var pre := head + c.name + ". " + salary;
    Mentions(head, c.name, ". " + salary + closing);
    assert head + c.name + (". " + salary + closing) == pre + closing;
    Mentions(pre, closing, "");
    assert pre + closing + "" == pre + closing;
    pre + closing
  }

  /** The next steps around a named career. */
  function NextStepsText(name: string): (t: string)
    ensures Contains(t, name)
  {
    var head := "Your next steps could include: 1) Researching ";
    var tail := " in detail, 2) Identifying required skills and qualifications, 3) Finding relevant courses "
      + "or training programs, 4) Building a portfolio or gaining experience. Would you like me to elaborate "
      + "on any of these?";
    Mentions(head, name, tail);
    head + name + tail
  }

  /** The reply text of each response. */
  function Text(r: Response): string
  {
    match r
    case CareerPick(c, insight) => CareerPickText(c, insight)
    case PathPick(path, interests) => PathPickText(path, interests)
    case SkillTips(strengths, interest) => SkillTipsText(strengths, interest)
    case LocalTips(location, stream) => LocalTipsText(location, stream)
    case InterestTips(interests, career) => InterestTipsText(interests, career)
    case EducationTips(stream, field) => EducationTipsText(stream, field)
    case SalaryInfo => SalaryText
    case NextSteps(career) => if career.Some? then NextStepsText(career.value) else GeneralStepsText
    case HelpOffer => HelpText
    case DefaultReply => DefaultText
  }

  function PathPickText(path: string, interests: seq<string>): string {
    "Based on your profile, a " + path + " path would suit you well. "
    + (if |interests| > 0 then "Your interests in " + FirstThree(interests) + " are valuable in this field." else "")
  }

  function SkillTipsText(strengths: seq<string>, interest: Option<string>): string {
    "You have strengths in " + FirstThree(strengths)
    + ". To build on these, consider focusing on practical projects and gaining hands-on experience. "
    + (if interest.Some? then "Given your interest in " + interest.value
         + ", I'd recommend exploring related courses and certifications." else "")
  }

  function LocalTipsText(location: string, stream: string): string {
    "I see you're from " + location + ". There are great opportunities in your area. "
    + (if stream != "" then "With your " + stream
         + " background, you can explore local industries that match your skills." else "")
  }

  function InterestTipsText(interests: seq<string>, career: Option<string>): string {
    "Your interests in " + FirstThree(interests)
    + " show great potential. These interests can lead to careers in various fields. "
    + (if career.Some? then "I'd suggest exploring " + career.value + " as a starting point."
       else "Would you like me to suggest specific career paths?")
  }

  function EducationTipsText(stream: string, field: string): string {
    "With your " + stream + " background, you have several options. "
    + (if field != "" then "You're pursuing " + field + ", which opens up many career paths."
       else "Consider exploring degree programs that align with your interests and strengths.")
  }

  const SalaryText :=
    "Salary ranges vary based on location, experience, and role. Entry-level positions typically start at "
    + "\U{20B9}20,000-30,000, while experienced professionals can earn \U{20B9}50,000-1,00,000+. "
    + "Would you like to know about specific job roles?"

  const GeneralStepsText :=
    "Your next steps should include: 1) Identifying your interests and strengths, 2) Researching career "
    + "options, 3) Understanding required qualifications, 4) Creating a learning plan. How can I help you "
    + "get started?"

  const HelpText :=
    "I'm here to help! I can provide guidance on careers, skills, education paths, and job opportunities. "
    + "What specific area would you like to explore?"

  const DefaultText :=
    "Thank you for your question! Based on the information I have about your profile, I can provide "
    + "personalized career guidance. Could you ask me something more specific about careers, skills, "
    + "education, or job opportunities?"

  /** A career question from a profile with top careers names the first one
      and quotes the first insight when there is one. */
  lemma CareerQuestionNamesTopCareer(question: string, u: User)
    requires ContainsAny(Lower(question), CareerWords) && |u.chatbot.topCareers| > 0
    ensures Contains(Text(Personalized(question, Some(u))), u.chatbot.topCareers[0].name)
    ensures |u.chatbot.insights| > 0 ==>
      Contains(Text(Personalized(question, Some(u))), u.chatbot.insights[0])
  {
  }

  /** Lower-cased text has no capitals left, so lower-casing twice is
      lower-casing once. */
  lemma {:induction false} LowerTwice(s: string)
    ensures Lower(Lower(s)) == Lower(s)
  {
    forall i | 0 <= i < |Lower(s)|
      ensures !('A' <= Lower(s)[i] <= 'Z')
    {
      LowerAt(s, i);
    }
    LowerOfLowercase(Lower(s));
  }

  /** The responder ignores capitalisation. */
  lemma CapitalisationDoesNotMatter(question: string, user: Option<User>)
    ensures Personalized(Lower(question), user) == Personalized(question, user)
  {
    LowerTwice(question);
  }
}
