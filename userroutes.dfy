/** The profile routes: the onboarding save that creates or merges a
    profile, the profile and dashboard reads, and the backend's own interest
    breakdown and skill gaps. The profiles are a store keyed by e-mail. */
module UserRoutes {
  import opened Wrappers
  import opened Strings
  import opened Models
  import opened Sorting
  import opened Breakdown
  import opened Dashboard

  // -------------------------------------------------------- onboarding save

  /** The chatbot part of an onboarding request. Absent or empty text is "";
      `insights`, `topCareers` and `conversations` are `None` when absent
      (or, for the first two, when not an array). */
  datatype ChatbotPatch = ChatbotPatch(
    careerPath: string,
    summary: string,
    sessionId: string,
    insights: Option<seq<string>>,
    topCareers: Option<seq<Career>>,
    conversations: Option<seq<Conversation>>)

  /** The body of `POST /onboarding`; a section that is absent is `None`. */
  datatype OnboardingRequest = OnboardingRequest(
    email: string,
    clerkId: string,
    location: Option<Location>,
    academic: Option<Academic>,
    graduation: Option<Graduation>,
    interests: Option<Interests>,
    chatbot: Option<ChatbotPatch>)

  /** The answer: the saved profile with 201 (created) or 200 (updated), or
      the 500 of the error handler. */
  datatype Reply = Saved(code: int, user: User) | Failed(error: Status)

  function OrElse<T>(o: Option<T>, d: T): T {
    if o.Some? then o.value else d
  }

  /** The stored text, overwritten by the given one only when that is truthy. */
  function Truthy(given: string, stored: string): (r: string)
    ensures r == given || r == stored
    ensures r == stored <==> given == "" || given == stored
  {
    if given != "" then given else stored
  }

  /** The chatbot merge: text fields overwritten only when truthy, the lists
      replaced only when arrays, and new conversations appended after the
      stored ones. */
  function MergeChatbot(c: ChatbotData, p: ChatbotPatch): (r: ChatbotData)
    ensures r.careerPath == Truthy(p.careerPath, c.careerPath)
    ensures r.summary == Truthy(p.summary, c.summary)
    ensures r.sessionId == Truthy(p.sessionId, c.sessionId)
    ensures r.insights == OrElse(p.insights, c.insights)
    ensures r.topCareers == OrElse(p.topCareers, c.topCareers)
    ensures |r.conversations| == |c.conversations| + |OrElse(p.conversations, [])|
    ensures r.conversations[..|c.conversations|] == c.conversations
    ensures r.conversations[|c.conversations|..] == OrElse(p.conversations, [])
  {
    ChatbotData(
      Truthy(p.careerPath, c.careerPath),
      Truthy(p.summary, c.summary),
      Truthy(p.sessionId, c.sessionId),
      OrElse(p.insights, c.insights),
      OrElse(p.topCareers, c.topCareers),
      c.conversations + OrElse(p.conversations, []))
  }

  /** The update of an existing profile: each section is replaced only when
      the request carries it, the clerkId only when truthy; the e-mail never
      changes. */
  function Merge(u: User, req: OnboardingRequest): (r: User)
    ensures r.email == u.email
    ensures req.location.None? ==> r.location == u.location
    ensures req.location.Some? ==> r.location == req.location
    ensures req.academic.None? ==> r.academic == u.academic
    ensures req.academic.Some? ==> r.academic == req.academic
    ensures req.graduation.None? ==> r.graduation == u.graduation
    ensures req.graduation.Some? ==> r.graduation == req.graduation
    ensures req.interests.None? ==> r.interests == u.interests
    ensures req.interests.Some? ==> r.interests == req.interests
    ensures req.chatbot.None? ==> r.chatbot == u.chatbot
    ensures r.clerkId == Truthy(req.clerkId, u.clerkId)
  {
    User(
      u.email,
      Truthy(req.clerkId, u.clerkId),
      if req.location.Some? then req.location else u.location,
      if req.academic.Some? then req.academic else u.academic,
      if req.graduation.Some? then req.graduation else u.graduation,
      if req.interests.Some? then req.interests else u.interests,
      if req.chatbot.Some? then MergeChatbot(u.chatbot, req.chatbot.value) else u.chatbot)
  }

  /** A new profile holds the request as sent, with `chatbotData || {}`. */
  function NewUser(req: OnboardingRequest): (r: User)
    ensures r.email == req.email && r.clerkId == req.clerkId
    ensures r.location == req.location && r.academic == req.academic
    ensures r.graduation == req.graduation && r.interests == req.interests
    ensures req.chatbot.None? ==> r.chatbot == EmptyChatbotData
  {
    var chatbot := if req.chatbot.Some? then MergeChatbot(EmptyChatbotData, req.chatbot.value) else EmptyChatbotData;
    User(req.email, req.clerkId, req.location, req.academic, req.graduation, req.interests, chatbot)
  }

  /** Another profile already holds this non-empty clerkId. */
  predicate ClerkTaken(users: map<string, User>, email: string, clerkId: string) {
    clerkId != "" && exists e :: e in users && e != email && users[e].clerkId == clerkId
  }

  /** The profiles are keyed by their e-mail, and the clerkId index holds. */
  ghost predicate StoreValid(users: map<string, User>) {
    (forall e :: e in users ==> e != "" && users[e].email == e) && ClerkIdsUnique(users)
  }

  /** `POST /onboarding`: an existing e-mail is merged (200), an unknown one
      creates a profile (201). A missing e-mail is sent in the query as null,
      which only a profile without an e-mail would match; the field is
      required, so none does. Saving fails with 500, changing nothing, when a
      new profile has no e-mail or when the saved clerkId belongs to another
      profile (the index is unique). */
  function Onboard(users: map<string, User>, req: OnboardingRequest): (r: (Reply, map<string, User>))
    ensures r.0.Failed? ==> r.0.error == ServerError && r.1 == users
    ensures r.0.Saved? ==> r.1 == users[req.email := r.0.user]
    ensures r.0.Saved? ==> (r.0.code == 201 <==> req.email !in users)
    ensures r.0.Saved? ==> (r.0.code == 200 <==> req.email in users)
    ensures req.email in users && r.0.Saved? ==> r.0.user == Merge(users[req.email], req)
    ensures req.email !in users && r.0.Saved? ==> r.0.user == NewUser(req)
  {
    if req.email in users then
      var u := Merge(users[req.email], req);
      if ClerkTaken(users, req.email, u.clerkId) then (Failed(ServerError), users)
      else (Saved(200, u), users[req.email := u])
    else if req.email == "" then (Failed(ServerError), users)
    else
      var u := NewUser(req);
      if ClerkTaken(users, req.email, u.clerkId) then (Failed(ServerError), users)
      else (Saved(201, u), users[req.email := u])
  }

  /** Saving keeps one profile per e-mail and the clerkId index unique. */
  lemma OnboardKeepsStoreValid(users: map<string, User>, req: OnboardingRequest)
    requires StoreValid(users)
    ensures StoreValid(Onboard(users, req).1)
    ensures Onboard(users, req).0.Saved? ==> Onboard(users, req).0.user.email == req.email
  {
    var (reply, after) := Onboard(users, req);
    if reply.Saved? {
      var u := reply.user;
      assert !ClerkTaken(users, req.email, u.clerkId);
      forall a, b | a in after && b in after && a != b && after[a].clerkId != ""
        ensures after[a].clerkId != after[b].clerkId
      {
        if a == req.email {
          assert after[a] == u && b in users && after[b] == users[b];
        } else if b == req.email {
          assert after[b] == u && a in users && after[a] == users[a];
        }
      }
    }
  }

  /** Saving touches only the profile under the request's e-mail and never
      removes one. */
  lemma OnboardTouchesOneProfile(users: map<string, User>, req: OnboardingRequest, e: string)
    requires e in users && e != req.email
    ensures e in Onboard(users, req).1 && Onboard(users, req).1[e] == users[e]
    ensures users.Keys <= Onboard(users, req).1.Keys
  {
  }

  /** Conversation history is kept: a merge appends the new conversations, so
      sending the same ones twice stores them twice. */
  lemma {:induction false} ConversationsAccumulate(u: User, req: OnboardingRequest)
    requires req.chatbot.Some? && req.chatbot.value.conversations.Some?
    ensures var c := req.chatbot.value.conversations.value;
      Merge(Merge(u, req), req).chatbot.conversations == u.chatbot.conversations + c + c
  {
  }

  /** Without conversations a merge is idempotent: saving the same request
      again changes nothing. */
  lemma MergeIdempotentWithoutConversations(u: User, req: OnboardingRequest)
    requires req.chatbot.None? || req.chatbot.value.conversations.None?
    ensures Merge(Merge(u, req), req) == Merge(u, req)
  {
    if req.chatbot.Some? {
      assert u.chatbot.conversations + [] == u.chatbot.conversations;
      var once := MergeChatbot(u.chatbot, req.chatbot.value);
      assert once.conversations + [] == once.conversations;
    }
  }

  /** The merge as the handler does it: the found profile's sections are
      overwritten one at a time. */
  method MergeFields(found: User, req: OnboardingRequest) returns (user: User)
    ensures user == Merge(found, req)
  {
    user := found;
    if req.location.Some? { user := user.(location := req.location); }
    if req.academic.Some? { user := user.(academic := req.academic); }
    if req.graduation.Some? { user := user.(graduation := req.graduation); }
    if req.interests.Some? { user := user.(interests := req.interests); }
    if req.chatbot.Some? {
      var c := MergeChatbotFields(user.chatbot, req.chatbot.value);
      user := user.(chatbot := c);
    }
    if req.clerkId != "" { user := user.(clerkId := req.clerkId); }
  }

  /** The chatbot part of the merge, one field at a time. */
  method MergeChatbotFields(found: ChatbotData, p: ChatbotPatch) returns (c: ChatbotData)
    ensures c == MergeChatbot(found, p)
  {
    c := found;
    if p.careerPath != "" { c := c.(careerPath := p.careerPath); }
    if p.summary != "" { c := c.(summary := p.summary); }
    if p.sessionId != "" { c := c.(sessionId := p.sessionId); }
    if p.insights.Some? { c := c.(insights := p.insights.value); }
    if p.topCareers.Some? { c := c.(topCareers := p.topCareers.value); }
    if p.conversations.Some? {
      c := c.(conversations := c.conversations + p.conversations.value);
    } else {
      assert c.conversations + [] == c.conversations;
    }
  }

  /** The profile store, updated in place by the onboarding save. */
  class UserStore {
    var users: map<string, User>

    ghost predicate Valid()
      reads this
    {
      StoreValid(users)
    }

    constructor()
      ensures users == map[] && Valid()
    {
      users := map[];
    }

    /** The handler: the found profile is merged and saved, or a new one is
        created. */
    method Onboarding(req: OnboardingRequest) returns (reply: Reply)
      requires Valid()
      modifies this
      ensures Valid()
      ensures (reply, users) == Onboard(old(users), req)
    {
      if req.email in users {
        var user := MergeFields(users[req.email], req);
        if ClerkTaken(users, req.email, user.clerkId) {
          reply := Failed(ServerError);
          return;
        }
        OnboardKeepsStoreValid(users, req);
        users := users[req.email := user];
        reply := Saved(200, user);
      } else if req.email == "" {
        reply := Failed(ServerError);
      } else {
        var user := NewUser(req);
        if ClerkTaken(users, req.email, user.clerkId) {
          reply := Failed(ServerError);
          return;
        }
        OnboardKeepsStoreValid(users, req);
        users := users[req.email := user];
        reply := Saved(201, user);
      }
    }
  }

  // ------------------------------------------------------------ profile reads

  /** `GET /:email`: the profile, or 404. */
  function Profile(users: map<string, User>, email: string): (r: Result<User, Status>)
    ensures r.Success? <==> email in users
    ensures r.Success? ==> r.value == users[email]
    ensures r.Failure? ==> r.error == NotFound
  {
    if email in users then Success(users[email]) else Failure(NotFound)
  }

  datatype DashboardData = DashboardData(user: User, interestStats: seq<Share>, topMatches: seq<TopMatch>,
                                         skillGaps: seq<Gap>)

  /** `GET /:email/dashboard`: the profile with its breakdown and skill gaps
      and no top matches, or 404. */
  function ProfileDashboard(users: map<string, User>, email: string): (r: Result<DashboardData, Status>)
    ensures r.Success? <==> email in users
    ensures r.Failure? ==> r.error == NotFound
    ensures r.Success? ==>
      && r.value.user == users[email] && r.value.topMatches == []
      && r.value.interestStats == ProfileShares(ProfileTally(users[email]))
      && r.value.skillGaps == ProfileSkillGaps(users[email])
  {
    if email !in users then Failure(NotFound)
    else
      var u := users[email];
      Success(DashboardData(u, ProfileShares(ProfileTally(u)), [], ProfileSkillGaps(u)))
  }

  // ------------------------------------------------------ interest breakdown

  const ProfileTechInterests := ["Coding", "Robotics", "Web Dev", "Data Science", "Gaming", "Research", "Lab Work",
                                 "Analysis", "Mathematics", "Physics", "Statistics", "Cyber Security", "AI/ML"]
  const ProfileCreativeInterests := ["Art", "Design", "Music", "Writing", "Reading", "Photography", "Videography",
                                     "Animation", "Film Making", "Cooking"]
  const ProfileBusinessInterests := ["Finance", "Accounting", "Business", "Management", "Marketing",
                                     "Entrepreneurship", "Economics", "Stock Market", "Investing"]
  const ProfileSocialInterests := ["History", "Politics", "Social Work", "Travel", "Public Speaking", "Teaching",
                                   "Volunteering", "HR", "Law", "Gardening", "Fitness"]

  /** Science +30 Technology, Commerce +30 Business, Arts +15 Creative and Social. */
  function ProfileStreamPoints(stream: string): Tally {
    Tally(technology := If(stream == "Science", 30),
          creative := If(stream == "Arts", 15),
          business := If(stream == "Commerce", 30),
          social := If(stream == "Arts", 15),
          rural := 0)
  }

  /** The degree tests are regular expressions, so '.' matches any character. */
  function ProfileDegreePoints(degree: string): Tally {
    var arts := degree != "" && AnyWildcardFound(degree, ["B.A", "Arts"]);
    Tally(technology := If(degree != "" && AnyWildcardFound(degree, ["B.Tech", "B.E", "B.Sc", "Diploma", "Computer"]), 20),
          creative := If(arts, 10),
          business := If(degree != "" && AnyWildcardFound(degree, ["B.Com", "BBA", "Management"]), 20),
          social := If(arts, 10),
          rural := 0)
  }

  /** An interest counts by exact, case-sensitive membership, +15. */
  function ProfileInterestPoints(i: string): Tally {
    Tally(technology := If(i in ProfileTechInterests, 15),
          creative := If(i in ProfileCreativeInterests, 15),
          business := If(i in ProfileBusinessInterests, 15),
          social := If(i in ProfileSocialInterests, 15),
          rural := 0)
  }

  /** The backend's tally: stream, degree field and selected interests, over
      four areas only. */
  function ProfileTally(u: User): Tally {
    ProfileStreamPoints(Stream(u))
      .Plus(ProfileDegreePoints(Degree(u)))
      .Plus(SumPoints(SelectedInterests(u), ProfileInterestPoints))
  }

  predicate HasPoints(e: AreaScore) {
    e.score > 0
  }

  /** The four areas with a positive score (a positive raw share). */
  function Positive(t: Tally): (r: seq<AreaScore>)
    ensures |r| <= 4
    ensures forall k :: 0 <= k < |r| ==> r[k].score > 0 && r[k].area != "Rural"
    ensures r == [] <==> t.technology == 0 && t.creative == 0 && t.business == 0 && t.social == 0
  {
    var four := Entries(t)[..4];
    assert four == [AreaScore("Technology", t.technology), AreaScore("Creative", t.creative),
                    AreaScore("Business", t.business), AreaScore("Social", t.social)];
    PositiveOfFour(four, t);
    Filter(four, HasPoints)
  }

  lemma PositiveOfFour(four: seq<AreaScore>, t: Tally)
    requires four == [AreaScore("Technology", t.technology), AreaScore("Creative", t.creative),
                      AreaScore("Business", t.business), AreaScore("Social", t.social)]
    ensures var r := Filter(four, HasPoints);
      && (forall k :: 0 <= k < |r| ==> r[k].score > 0 && r[k].area != "Rural")
      && (r == [] <==> t.technology == 0 && t.creative == 0 && t.business == 0 && t.social == 0)
  {
    FilterEmptyIff(four, HasPoints);
    FilterSubset(four, HasPoints);
    assert (forall k :: 0 <= k < |four| ==> !HasPoints(four[k]))
      <==> t.technology == 0 && t.creative == 0 && t.business == 0 && t.social == 0 by {
      assert HasPoints(four[0]) <==> t.technology > 0;
      assert HasPoints(four[1]) <==> t.creative > 0;
      assert HasPoints(four[2]) <==> t.business > 0;
      assert HasPoints(four[3]) <==> t.social > 0;
    }
    assert forall x :: x in four ==> x.area != "Rural";
    assert forall k :: 0 <= k < |Filter(four, HasPoints)| ==> Filter(four, HasPoints)[k] in four;
  }

  /** The at most three highest positive areas. */
  function ProfileTopAreas(t: Tally): seq<AreaScore> {
    Take(Sort(Positive(t), HigherScore), 3)
  }

  /** `calculateInterestStats()` on a tally: General 100 for a zero total,
      else the at most three highest positive areas with their rounded
      shares, and no correction of the sum. */
  function ProfileShares(t: Tally): seq<Share> {
    var total := t.Total();
    if total == 0 then GeneralShare
    else Rounded(ProfileTopAreas(t), total)
  }

  /** The backend's tally never scores Rural. */
  lemma ProfileTallyHasNoRural(u: User)
    ensures ProfileTally(u).rural == 0
  {
    SumPointsNoRural(SelectedInterests(u));
  }

  lemma {:induction false} SumPointsNoRural(xs: seq<string>)
    ensures SumPoints(xs, ProfileInterestPoints).rural == 0
  {
    if xs != [] {
      SumPointsNoRural(xs[..|xs| - 1]);
    }
  }

  /** For a tally with points and no Rural score there are one to three top
      areas, each with a positive score, by non-increasing score, and no
      positive area left out scores above one kept. */
  lemma ProfileTopAreasOfPositiveTotal(t: Tally)
    requires t.Total() > 0 && t.rural == 0
    ensures var top := ProfileTopAreas(t);
      && 1 <= |top| <= 3
      && (forall i :: 0 <= i < |top| ==> top[i].score > 0)
      && (forall i, j :: 0 <= i < j < |top| ==> top[i].score >= top[j].score)
      && (forall e :: e in Positive(t) && e !in top ==> forall i :: 0 <= i < |top| ==> e.score <= top[i].score)
  {
    var kept := Positive(t);
    var sorted := Sort(kept, HigherScore);
    TopThree(kept);
    var top := ProfileTopAreas(t);
    assert top == Take(sorted, 3);
    forall i | 0 <= i < |top|
      ensures top[i].score > 0
    {
      assert top[i] == sorted[i];
      assert sorted[i] in multiset(kept);
    }
    forall e | e in kept && e !in top
      ensures forall i :: 0 <= i < |top| ==> e.score <= top[i].score
    {
      assert e in multiset(sorted);
      var j :| 0 <= j < |sorted| && sorted[j] == e;
      assert j >= |top|;
    }
  }

  /** For such a tally the breakdown shows the top areas in their order,
      each with its own rounded share and no correction. */
  lemma ProfileSharesOfPositiveTotal(t: Tally)
    requires t.Total() > 0 && t.rural == 0
    ensures var top := ProfileTopAreas(t);
      var r := ProfileShares(t);
      && 1 <= |r| == |top| <= 3
      && (forall i :: 0 <= i < |r| ==> r[i].area == top[i].area && r[i].percentage == Percent(top[i].score, t.Total()))
  {
    ProfileTopAreasOfPositiveTotal(t);
  }

  /** Without the correction the shares need not sum to 100: three equal
      areas show 33 each. */
  lemma ProfileSharesMayMissHundred()
    ensures SumOf(ProfileShares(Tally(15, 15, 15, 0, 0))) == 99
  {
    ThreeEqualAreas(Tally(15, 15, 15, 0, 0));
  }

  lemma ThreeEqualAreas(t: Tally)
    requires t == Tally(15, 15, 15, 0, 0)
    ensures ProfileShares(t) == [Share("Technology", 33), Share("Creative", 33), Share("Business", 33)]
  {
    var kept := [AreaScore("Technology", 15), AreaScore("Creative", 15), AreaScore("Business", 15)];
    assert Entries(t)[..4] == kept + [AreaScore("Social", 0)];
    ThreePositive(kept);
    assert Sort(kept, HigherScore) == kept by {
      SortOfSorted(kept, HigherScore);
    }
    assert ProfileTopAreas(t) == kept;
    assert t.Total() == 45;
    RoundedThreeEqual(kept);
  }

  lemma ThreePositive(kept: seq<AreaScore>)
    requires kept == [AreaScore("Technology", 15), AreaScore("Creative", 15), AreaScore("Business", 15)]
    ensures Filter(kept + [AreaScore("Social", 0)], HasPoints) == kept
  {
    FilterSnoc(kept, AreaScore("Social", 0), HasPoints);
    FilterKeepsAll(kept, HasPoints);
  }

  lemma RoundedThreeEqual(kept: seq<AreaScore>)
    requires kept == [AreaScore("Technology", 15), AreaScore("Creative", 15), AreaScore("Business", 15)]
    ensures Rounded(kept, 45) == [Share("Technology", 33), Share("Creative", 33), Share("Business", 33)]
  {
  }

  /** '.' in `B.A` matches any character, so a BBA degree also counts as an
      arts degree. */
  lemma BbaCountsAsArts()
    ensures ProfileDegreePoints("BBA") == Tally(0, 10, 20, 10, 0)
  {
    assert WildcardFound("BBA", ["B.Com", "BBA", "Management"][1]) by {
      assert WildcardPrefix("BBA", "BBA");
    }
    assert WildcardFound("BBA", ["B.A", "Arts"][0]) by {
      assert WildcardPrefix("BBA", "B.A");
    }
    WildcardNotFoundWhenLonger("BBA", "B.Tech");
    assert !WildcardFound("BBA", "B.E") by {
      WildcardNotFoundWhenLonger("BBA"[1..], "B.E");
      assert "B.E"[2] != "BBA"[2];
    }
    WildcardNotFoundWhenLonger("BBA", "B.Sc");
    WildcardNotFoundWhenLonger("BBA", "Diploma");
    WildcardNotFoundWhenLonger("BBA", "Computer");
  }

  /** Every listed interest is written with a leading capital. */
  predicate Capitalised(names: seq<string>) {
    forall k :: 0 <= k < |names| ==> |names[k]| > 0 && 'A' <= names[k][0] <= 'Z'
  }

  /** Interests are matched as written: one written with a leading small
      letter (as the dashboard's lower-cased lists would have it) adds
      nothing, where its capitalised form may add 15. */
  lemma {:induction false} LowerCaseInterestAddsNothing(i: string)
    requires |i| > 0 && 'a' <= i[0] <= 'z'
    ensures ProfileInterestPoints(i) == Zero
  {
    assert Capitalised(ProfileTechInterests);
    assert Capitalised(ProfileCreativeInterests);
    assert Capitalised(ProfileBusinessInterests);
    assert Capitalised(ProfileSocialInterests);
  }

  lemma CapitalisedInterestCounts()
    ensures ProfileInterestPoints("Coding") == Tally(15, 0, 0, 0, 0)
  {
    assert "Coding" == ProfileTechInterests[0];
  }

  /** `calculateInterestStats()`: the tally is built up with `+=`, the
      interests one by one, then turned into shares. */
  method CalculateInterestStats(u: User) returns (stats: seq<Share>)
    ensures stats == ProfileShares(ProfileTally(u))
  {
    var scores := ProfileStreamPoints(Stream(u));
    scores := scores.Plus(ProfileDegreePoints(Degree(u)));
    scores := AddEach(scores, SelectedInterests(u), ProfileInterestPoints);
    var total := scores.Total();
    if total == 0 {
      return GeneralShare;
    }
    stats := Rounded(ProfileTopAreas(scores), total);
  }

  // ------------------------------------------------------------- skill gaps

  /** `calculateSkillGaps()`: each subject scored below 7 as a gap from 60 to
      90, in dictionary order, or the three fixed defaults when there is none. */
  function ProfileSkillGaps(u: User): (r: seq<Gap>)
    ensures HasWeakSubject(Some(u)) ==>
      && |r| == |WeakSubjects(SubjectLikes(u))|
      && forall i :: 0 <= i < |r| ==>
           r[i].name == WeakSubjects(SubjectLikes(u))[i] && r[i].current == 60 && r[i].target == 90
    ensures !HasWeakSubject(Some(u)) ==> r == DefaultGaps
  {
    var weak := WeakSubjects(SubjectLikes(u));
    assert |weak| > 0 <==> HasWeakSubject(Some(u)) by {
      if |weak| > 0 {
        assert weak[0] in weak;
      }
      if HasWeakSubject(Some(u)) {
        var k :| 0 <= k < |SubjectLikes(u)| && SubjectLikes(u)[k].score < 7;
        assert SubjectLikes(u)[k].subject in weak;
      }
    }
    if |weak| > 0 then seq(|weak|, i requires 0 <= i < |weak| => Gap(weak[i], 60, 90))
    else DefaultGaps
  }

  /** `calculateSkillGaps()` as written lists the subject likes with
      `Object.entries`, which finds no entry on the Mongoose `Map`: whatever
      the scores, the three defaults are returned, and a profile with a weak
      subject gets other gaps than the ones intended. */
  lemma GapsAsWrittenAreAlwaysDefault(u: User)
    ensures ProfileSkillGaps(SubjectLikesUnread(u)) == DefaultGaps
    ensures HasWeakSubject(Some(u)) ==> ProfileSkillGaps(u) != ProfileSkillGaps(SubjectLikesUnread(u))
  {
    var r := ProfileSkillGaps(u);
    if HasWeakSubject(Some(u)) && |r| == 3 {
      assert r[1].current == 60 != DefaultGaps[1].current;
    }
  }

  function GapNames(gaps: seq<Gap>): (r: seq<string>)
    ensures |r| == |gaps| && forall i :: 0 <= i < |r| ==> r[i] == gaps[i].name
  {
    seq(|gaps|, i requires 0 <= i < |gaps| => gaps[i].name)
  }

  /** When some subject is weak, the backend's gaps name exactly the
      dashboard's skills to improve, in the same order. */
  lemma GapsNameSkillsToImprove(u: User)
    requires HasWeakSubject(Some(u))
    ensures GapNames(ProfileSkillGaps(u)) == SkillsToImprove(Some(u))
  {
    var weak := WeakSubjects(SubjectLikes(u));
    var k :| 0 <= k < |SubjectLikes(u)| && SubjectLikes(u)[k].score < 7;
    assert SubjectLikes(u)[k].subject in weak;
    assert SkillsToImprove(Some(u)) == weak;
    assert GapNames(ProfileSkillGaps(u)) == weak;
  }
}
