/** The question bank endpoints: choosing the questions to ask from the
    asker's profile, and appending asked questions and their answers to the
    profile's conversation history. The bank is a sequence in storage
    order; the profiles are the e-mail-keyed store of the profile routes. */
module ChatbotRoutes {
  import opened Wrappers
  import opened Models
  import opened UserRoutes

  /** A question of the bank. */
  datatype Question = Question(question: string, answer: string, category: string, tags: seq<string>,
                               isActive: bool)

  // ------------------------------------------------------------ tag sets

  const FoundationTags := ["tools", "earning", "skill-based"]
  const TechTags := ["puzzles", "computer", "tech", "coding"]
  const CreativeTags := ["creative", "team", "aesthetics", "design"]

  /** `subjectScores.Math || 0`. */
  function MathScore(u: User): int {
    var s := ScoreOf(SubjectLikes(u), "Math");
    if s.Some? then s.value else 0
  }

  predicate Completed12(u: User) {
    u.academic.Some? && u.academic.value.is12Completed == Some(true)
  }

  /** The tags to ask about: a learner who has not completed 12th with a
      Math score below 5 gets the foundation tags; otherwise a Science
      learner with Math above 7 and a Coding interest gets the technical
      ones; otherwise an Arts learner or one interested in Art & Design
      gets the creative ones; anyone else, and an unknown asker, none. */
  function TagSet(user: Option<User>): (r: seq<string>)
    ensures user.None? ==> r == []
    ensures user.Some? ==>
      var u := user.value;
      && (r == FoundationTags <==> !Completed12(u) && MathScore(u) < 5)
      && (r == TechTags <==> !(!Completed12(u) && MathScore(u) < 5)
                             && Stream(u) == "Science" && MathScore(u) > 7 && "Coding" in SelectedInterests(u))
      && (r == CreativeTags <==> !(!Completed12(u) && MathScore(u) < 5)
                                 && !(Stream(u) == "Science" && MathScore(u) > 7 && "Coding" in SelectedInterests(u))
                                 && (Stream(u) == "Arts" || "Art & Design" in SelectedInterests(u)))
    ensures r == [] || r == FoundationTags || r == TechTags || r == CreativeTags
  {
    if user.None? then []
    else
      var u := user.value;
      if !Completed12(u) && MathScore(u) < 5 then FoundationTags
      else if Stream(u) == "Science" && MathScore(u) > 7 && "Coding" in SelectedInterests(u) then TechTags
      else if Stream(u) == "Arts" || "Art & Design" in SelectedInterests(u) then CreativeTags
      else []
  }

  /** A learner past 12th is never given the foundation tags. */
  lemma FoundationOnlyBefore12(u: User)
    requires Completed12(u)
    ensures TagSet(Some(u)) != FoundationTags
  {
  }

  /** A Science learner who likes Coding but has not completed 12th and
      never scored Math gets the foundation tags, not the technical ones. */
  lemma StrongCoderBefore12GetsFoundation(u: User)
    requires !Completed12(u) && Stream(u) == "Science" && "Coding" in SelectedInterests(u)
    requires ScoreOf(SubjectLikes(u), "Math").None?
    ensures TagSet(Some(u)) == FoundationTags
  {
  }

  /** `GET /questions` as written reads `subjectScores.Math` off the
      Mongoose `Map`, where it is undefined: Math counts as 0 for everyone,
      so every learner before 12th gets the foundation tags and no one gets
      the technical tags, not even the strong Science coder the rule is
      for. */
  lemma MathAsWrittenIsAlwaysZero(u: User)
    ensures TagSet(Some(SubjectLikesUnread(u))) == FoundationTags <==> !Completed12(u)
    ensures TagSet(Some(SubjectLikesUnread(u))) != TechTags
    ensures Completed12(u) && Stream(u) == "Science" && "Coding" in SelectedInterests(u) && MathScore(u) > 7 ==>
      TagSet(Some(u)) == TechTags
  {
    assert MathScore(SubjectLikesUnread(u)) == 0;
  }

  // ------------------------------------------------------------ selection

  /** An active question carrying one of the tags (`tags: { $in: ... }`). */
  predicate Tagged(q: Question, tags: seq<string>) {
    q.isActive && exists k :: 0 <= k < |q.tags| && q.tags[k] in tags
  }

  predicate General(q: Question) {
    q.isActive && q.category == "general"
  }

  /** The bank's active questions with one of the tags, in bank order. */
  function WithTags(bank: seq<Question>, tags: seq<string>): (r: seq<Question>)
    ensures |r| <= |bank|
    ensures forall q :: q in r <==> q in bank && Tagged(q, tags)
  {
    if bank == [] then []
    else (if Tagged(bank[0], tags) then [bank[0]] else []) + WithTags(bank[1..], tags)
  }

  /** The bank's active general questions, in bank order. */
  function GeneralQuestions(bank: seq<Question>): (r: seq<Question>)
    ensures |r| <= |bank|
    ensures forall q :: q in r <==> q in bank && General(q)
  {
    if bank == [] then []
    else (if General(bank[0]) then [bank[0]] else []) + GeneralQuestions(bank[1..])
  }

  function FirstFive(qs: seq<Question>): (r: seq<Question>)
    ensures |r| <= 5 && |r| <= |qs| && r == qs[..|r|]
    ensures |r| == 5 || r == qs
  {
    if |qs| <= 5 then qs else qs[..5]
  }

  /** `GET /questions`: at most five questions with the profile's tags,
      or, when there are none, at most five general ones. */
  function Questions(bank: seq<Question>, user: Option<User>): (r: seq<Question>)
    ensures |r| <= 5
    ensures forall q :: q in r ==> q in bank && q.isActive
    ensures TagSet(user) != [] && WithTags(bank, TagSet(user)) != [] ==>
      r == FirstFive(WithTags(bank, TagSet(user)))
    ensures TagSet(user) == [] || WithTags(bank, TagSet(user)) == [] ==>
      r == FirstFive(GeneralQuestions(bank))
  {
    var tags := TagSet(user);
    var picked := if tags != [] then FirstFive(WithTags(bank, tags)) else [];
    var r := if picked == [] then FirstFive(GeneralQuestions(bank)) else picked;
    assert forall q :: q in r ==> q in WithTags(bank, tags) || q in GeneralQuestions(bank);
    r
  }

  /** Every question chosen for a profile with a tag set either carries one
      of its tags or is a general question, the latter only when no question
      carries one. */
  lemma {:induction false} ChosenQuestionsFitTheProfile(bank: seq<Question>, user: Option<User>, q: Question)
    requires q in Questions(bank, user)
    ensures Tagged(q, TagSet(user)) || General(q)
    ensures !Tagged(q, TagSet(user)) ==> forall p :: p in bank ==> !Tagged(p, TagSet(user)) || TagSet(user) == []
  {
    var tags := TagSet(user);
    var r := Questions(bank, user);
    if tags != [] && WithTags(bank, tags) != [] {
      var w := WithTags(bank, tags);
      assert q in w[..|r|];
      assert q in w;
    } else {
      var g := GeneralQuestions(bank);
      assert q in g[..|r|];
      assert q in g;
    }
  }

  // ------------------------------------------------------------ conversations

  /** The handlers' push onto the profile's history. */
  function Appended(u: User, question: string, answer: string): (r: User)
    ensures r.chatbot.conversations == u.chatbot.conversations + [Conversation(question, "", answer)]
    ensures r == u.(chatbot := u.chatbot.(conversations := r.chatbot.conversations))
  {
    u.(chatbot := u.chatbot.(conversations := u.chatbot.conversations + [Conversation(question, "", answer)]))
  }

  /** `POST /conversation`: e-mail, question and answer are required
      (400), the profile must exist (404), and the pair is appended after
      the stored history. */
  function SaveConversation(users: map<string, User>, email: string, question: string, answer: string)
    : (r: (Result<User, Status>, map<string, User>))
    ensures r.0 == Failure(BadRequest) <==> email == "" || question == "" || answer == ""
    ensures r.0 == Failure(NotFound) <==> email != "" && question != "" && answer != "" && email !in users
    ensures r.0.Failure? ==> r.1 == users
    ensures r.0.Success? ==> email in users && r.0.value == Appended(users[email], question, answer)
                             && r.1 == users[email := r.0.value]
  {
    if email == "" || question == "" || answer == "" then (Failure(BadRequest), users)
    else if email !in users then (Failure(NotFound), users)
    else
      var u := Appended(users[email], question, answer);
      (Success(u), users[email := u])
  }

  /** The generic replies of `POST /answer` when the bank has no match. */
  const GenericResponses := [
    "That's an interesting question! Based on current market trends, focusing on practical skills is key.",
    "I can definitely help with that. Have you considered looking into certifications for that role?",
    "Great choice! Many top companies are looking for exactly those kinds of skills right now.",
    "To get started, I'd recommend building a strong portfolio. Would you like some project ideas?",
    "Network engineering and Cyber Security are closely related. You might find skills in one transferable to the other."
  ]

  datatype Source = Database | Generated

  /** `POST /answer`: the bank's answer when it matched the question
      (`matched`), else the generic reply at the drawn position `pick`; the
      pair is appended to the asker's history when the e-mail names a
      profile. */
  function AnswerQuestion(users: map<string, User>, question: string, email: string,
                          matched: Option<string>, pick: nat): (r: (string, Source, map<string, User>))
    requires pick < |GenericResponses|
    ensures r.1 == Database <==> matched.Some?
    ensures matched.Some? ==> r.0 == matched.value
    ensures matched.None? ==> r.0 in GenericResponses
    ensures email != "" && email in users ==> r.2 == users[email := Appended(users[email], question, r.0)]
    ensures !(email != "" && email in users) ==> r.2 == users
  {
    var reply := if matched.Some? then matched.value else GenericResponses[pick];
    var source := if matched.Some? then Database else Generated;
    if email != "" && email in users then (reply, source, users[email := Appended(users[email], question, reply)])
    else (reply, source, users)
  }

  /** Appending to the history keeps one profile per e-mail and the
      clerkId index, and changes no other profile. */
  lemma AppendKeepsStoreValid(users: map<string, User>, email: string, question: string, answer: string)
    requires StoreValid(users) && email in users
    ensures StoreValid(users[email := Appended(users[email], question, answer)])
  {
    var after := users[email := Appended(users[email], question, answer)];
    assert forall e :: e in after ==> after[e].clerkId == users[e].clerkId && after[e].email == users[e].email;
  }

  /** Two saves of the same pair store it twice: the history only grows. */
  lemma {:induction false} SavingTwiceStoresTwice(users: map<string, User>, email: string, q: string, a: string)
    requires email in users && email != "" && q != "" && a != ""
    ensures var once := SaveConversation(users, email, q, a).1;
      SaveConversation(once, email, q, a).1[email].chatbot.conversations
        == users[email].chatbot.conversations + [Conversation(q, "", a), Conversation(q, "", a)]
  {
    var once := SaveConversation(users, email, q, a).1;
    assert once[email] == Appended(users[email], q, a);
  }

  /** The profile store's conversation handlers, appending in place. */
  method SaveConversationIn(store: UserStore, email: string, question: string, answer: string)
    returns (r: Result<User, Status>)
    requires store.Valid()
    modifies store
    ensures store.Valid()
    ensures (r, store.users) == SaveConversation(old(store.users), email, question, answer)
  {
    if email == "" || question == "" || answer == "" {
      return Failure(BadRequest);
    }
    if email !in store.users {
      return Failure(NotFound);
    }
    AppendKeepsStoreValid(store.users, email, question, answer);
    var user := store.users[email];
    user := user.(chatbot := user.chatbot.(conversations := user.chatbot.conversations + [Conversation(question, "", answer)]));
    store.users := store.users[email := user];
    r := Success(user);
  }

  method AnswerQuestionIn(store: UserStore, question: string, email: string, matched: Option<string>, pick: nat)
    returns (reply: string, source: Source)
    requires store.Valid() && pick < |GenericResponses|
    modifies store
    ensures store.Valid()
    ensures (reply, source, store.users) == AnswerQuestion(old(store.users), question, email, matched, pick)
  {
    if matched.Some? {
      reply, source := matched.value, Database;
    } else {
      reply, source := GenericResponses[pick], Generated;
    }
    if email != "" && email in store.users {
      AppendKeepsStoreValid(store.users, email, question, reply);
      var user := store.users[email];
      user := user.(chatbot := user.chatbot.(conversations := user.chatbot.conversations + [Conversation(question, "", reply)]));
      store.users := store.users[email := user];
    }
  }
}
