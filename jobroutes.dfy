/** The two job handlers that price jobs for a user: the recommendation
    list (`GET /recommendations/:email`) and the single-job view
    (`GET /:id?email=`), with the single-job view's not-found fallback. */
module JobRoutes {
  import opened Wrappers
  import opened Strings
  import opened Models
  import opened Scoring
  import opened Sorting
  import opened Ranking
  import opened Reconciliation

  // --------------------------------------------------- the recommendation list

  /** The response of the recommendation handler as the code is written:
      404 for an unknown user; a 500 whenever the user has chatbot careers
      but no job matched one, because the reconciliation branch assigns to
      the constant `otherJobs` and throws; otherwise the listing of the
      recommended jobs followed by the others. */
  function Recommendations(user: Option<User>, jobs: seq<Job>): (r: Result<seq<Listed>, Status>)
    ensures user.None? ==> r == Failure(NotFound)
    ensures r.Success? ==> |r.value| == if |jobs| < 20 then |jobs| else 20
  {
    if user.None? then Failure(NotFound)
    else
      var u := user.value;
      var sorted := Ranked(u, jobs);
      var recs := Recs(sorted);
      if |u.chatbot.topCareers| > 0 && |recs| == 0 then Failure(ServerError)
      else
        RecsThenOthersIsRanked(u, jobs);
        Success(Listing(recs + Others(sorted)))
  }

  /** A known user gets a 500 exactly when they have chatbot careers and no
      job matches any of them; otherwise the response lists the ranking. */
  lemma ServerErrorIffCareersButNoMatch(u: User, jobs: seq<Job>)
    ensures Recommendations(Some(u), jobs) == Failure(ServerError) <==>
      |u.chatbot.topCareers| > 0 && forall k :: 0 <= k < |jobs| ==> !Score(u, jobs[k]).recommended
    ensures Recommendations(Some(u), jobs).Success? ==>
      Recommendations(Some(u), jobs).value == Listing(Ranked(u, jobs))
  {
    NoRecsIffNoneRecommended(u, jobs);
    RecsThenOthersIsRanked(u, jobs);
  }

  /** The handler: scores the jobs in place, sorts them, and on the
      reconciliation branch runs the greedy claim and then fails, as the
      assignment to the constant does; otherwise lists the ranking. */
  method RecommendationsHandler(user: Option<User>, jobs: seq<Job>) returns (r: Result<seq<Listed>, Status>)
    ensures r == Recommendations(user, jobs)
  {
    if user.None? {
      return Failure(NotFound);
    }
    var u := user.value;
    var scored := ScoreList(u, jobs);
    var sorted := Sort(scored, Precedes);
    var recs := Recs(sorted);
    var others := Others(sorted);
    if |u.chatbot.topCareers| > 0 && |recs| == 0 {
      var claimedJobs, claimed := Reconcile(u.chatbot.topCareers, others);
      return Failure(ServerError);
    }
    r := Success(Listing(recs + others));
  }

  /** The handlers' `map` over the jobs: each job object gets its score
      written onto it. */
  method ScoreList(u: User, jobs: seq<Job>) returns (scored: seq<Scored>)
    ensures scored == ScoreAll(u, jobs)
  {
    var n := |jobs|;
    var a := new Scored[n](k requires 0 <= k < n => Scored(jobs[k], 0, false, None));
    ScoreJobs(u, a);
    scored := a[..];
  }

  /** The response as evidently intended: on the reconciliation branch the
      claimed jobs, re-sorted by chatbot score, come first and the unclaimed
      other jobs follow. */
  function RecommendationsIntended(user: Option<User>, jobs: seq<Job>): (r: Result<seq<Listed>, Status>)
    ensures r.Failure? <==> user.None?
    ensures r.Success? ==> |r.value| <= 20
  {
    if user.None? then Failure(NotFound)
    else
      var u := user.value;
      var sorted := Ranked(u, jobs);
      var recs := Recs(sorted);
      var others := Others(sorted);
      if |u.chatbot.topCareers| > 0 && |recs| == 0 then
        var claim := ClaimUpTo(u.chatbot.topCareers, others, |u.chatbot.topCareers|);
        Success(Listing(Sort(claim.0, ByChatbotScore) + Unclaimed(others, claim.1)))
      else Success(Listing(recs + others))
  }

  /** Off the reconciliation branch the intended response is the written one. */
  lemma IntendedAgreesOffReconciliation(u: User, jobs: seq<Job>)
    requires Recommendations(Some(u), jobs) != Failure(ServerError)
    ensures RecommendationsIntended(Some(u), jobs) == Recommendations(Some(u), jobs)
  {
  }

  /** The other jobs whose id was not claimed, in order. */
  function Unclaimed(others: seq<Scored>, claimed: set<string>): (r: seq<Scored>)
    ensures |r| <= |others|
    ensures forall k :: 0 <= k < |r| ==> r[k].job.id !in claimed && r[k] in others
  {
    var p := (s: Scored) => s.job.id !in claimed;
    FilterSubset(others, p);
    Filter(others, p)
  }

  /** The claimed jobs head the listing, in claiming order and marked
      recommended; the top five show 95, 92, 89, 86, 83 and later ones one
      below their chatbot score, kept in [80, 82]. */
  predicate ClaimsHead(listed: seq<Listed>, claims: seq<Scored>) {
    forall k :: 0 <= k < |listed| && k < |claims| ==>
      && listed[k].job == claims[k].job
      && listed[k].recommended
      && listed[k].matchValue == (if k < 5 then 95 - 3 * k else Clamp(80, 82, ChatbotScoreOrZero(claims[k]) - 1))
  }

  /** After the claimed jobs the listing holds only jobs that are not
      recommended and whose id was not claimed. */
  predicate UnclaimedTail(listed: seq<Listed>, claims: seq<Scored>, claimed: set<string>) {
    forall k :: |claims| <= k < |listed| ==> listed[k].job.id !in claimed && !listed[k].recommended
  }

  /** Listing claimed jobs ahead of the rest: the claimed jobs head the
      listing and the rest follow in order with their flags. */
  lemma ListingOfClaimsThenRest(claims: seq<Scored>, rest: seq<Scored>)
    requires forall k :: 0 <= k < |claims| ==> claims[k].recommended && claims[k].chatbotScore.Some?
    ensures var listed := Listing(claims + rest);
      && ClaimsHead(listed, claims)
      && (forall k :: |claims| <= k < |listed| ==>
            listed[k].job == rest[k - |claims|].job && listed[k].recommended == rest[k - |claims|].recommended)
  {
    var sorted := claims + rest;
    forall k | 0 <= k < |Listing(sorted)| && k < |claims|
      ensures Listing(sorted)[k].matchValue == (if k < 5 then 95 - 3 * k else Clamp(80, 82, ChatbotScoreOrZero(claims[k]) - 1))
    {
      assert sorted[k] == claims[k];
      if k >= 5 {
        PositionalTail(sorted, k);
      }
    }
    forall k | |claims| <= k < |Listing(sorted)|
      ensures Listing(sorted)[k].job == rest[k - |claims|].job
    {
      assert sorted[k] == rest[k - |claims|];
    }
  }

  /** Claimed jobs listed ahead of the unclaimed other jobs. */
  lemma ListingOfClaimsThenUnclaimed(claims: seq<Scored>, others: seq<Scored>, claimed: set<string>)
    requires forall k :: 0 <= k < |claims| ==> claims[k].recommended && claims[k].chatbotScore.Some?
    requires forall k :: 0 <= k < |others| ==> !others[k].recommended
    ensures ClaimsHead(Listing(claims + Unclaimed(others, claimed)), claims)
    ensures UnclaimedTail(Listing(claims + Unclaimed(others, claimed)), claims, claimed)
  {
    var rest := Unclaimed(others, claimed);
    ListingOfClaimsThenRest(claims, rest);
    var listed := Listing(claims + rest);
    forall k | |claims| <= k < |listed|
      ensures listed[k].job.id !in claimed && !listed[k].recommended
    {
      var j := k - |claims|;
      assert rest[j] in others;
    }
  }

  /** On the reconciliation branch the intended response lists the claimed
      jobs first (in claiming order, marked recommended, the top five at 95,
      92, 89, 86, 83 and later ones one below their chatbot score, in
      [80, 82]) and after them only other jobs whose id was not claimed. */
  lemma IntendedListsClaimsThenUnclaimed(u: User, jobs: seq<Job>, claim: (seq<Scored>, set<string>))
    requires Recommendations(Some(u), jobs) == Failure(ServerError)
    requires claim == ClaimUpTo(u.chatbot.topCareers, Others(Ranked(u, jobs)), |u.chatbot.topCareers|)
    ensures RecommendationsIntended(Some(u), jobs).Success?
    ensures ClaimsHead(RecommendationsIntended(Some(u), jobs).value, claim.0)
    ensures UnclaimedTail(RecommendationsIntended(Some(u), jobs).value, claim.0, claim.1)
  {
    var others := Others(Ranked(u, jobs));
    IntendedOnReconciliation(u, jobs, others, claim);
    ClaimsComeFromOthers(others, Table(u.chatbot.topCareers, others), |u.chatbot.topCareers|);
    ListingOfClaimsThenUnclaimed(claim.0, others, claim.1);
  }

  lemma IntendedOnReconciliation(u: User, jobs: seq<Job>, others: seq<Scored>, claim: (seq<Scored>, set<string>))
    requires Recommendations(Some(u), jobs) == Failure(ServerError)
    requires others == Others(Ranked(u, jobs))
    requires claim == ClaimUpTo(u.chatbot.topCareers, others, |u.chatbot.topCareers|)
    ensures RecommendationsIntended(Some(u), jobs) == Success(Listing(claim.0 + Unclaimed(others, claim.1)))
  {
    ResortIsIdentity(u.chatbot.topCareers, others);
  }

  // ------------------------------------------------------- the single-job view

  /** The first entry with the given (non-empty) id, as `findIndex` finds it. */
  function FindById(s: seq<Scored>, id: string): (r: Option<nat>)
    ensures r.Some? ==>
      && r.value < |s| && id != "" && s[r.value].job.id == id
      && forall k :: 0 <= k < r.value ==> s[k].job.id != id
    ensures r.None? ==> id == "" || forall k :: 0 <= k < |s| ==> s[k].job.id != id
  {
    if s == [] || id == "" then None
    else if s[0].job.id == id then Some(0)
    else
      var r := FindById(s[1..], id);
      assert forall k :: 1 <= k < |s| ==> s[k] == s[1..][k - 1];
      if r.Some? then Some(r.value + 1) else None
  }

  /** The not-found fallback: every matching career (in list order, no
      `break`) adds 100, and the chatbot score is that of the last one. */
  datatype Fallback = Fallback(score: int, recommended: bool, chatbotScore: Option<int>)

  /** Which of the career names match the job, in order. */
  function MatchFlags(names: seq<string>, job: Job): (r: seq<bool>)
    ensures |r| == |names|
  {
    if names == [] then [] else [CareerMatches(names[0], job)] + MatchFlags(names[1..], job)
  }

  lemma {:induction false} MatchFlagsAt(names: seq<string>, job: Job, k: nat)
    requires k < |names|
    ensures MatchFlags(names, job)[k] == CareerMatches(names[k], job)
  {
    if k > 0 {
      MatchFlagsAt(names[1..], job, k - 1);
    }
  }

  /** The career loop of the fallback over the first `n` careers, given
      which of them match the job. */
  function FallbackCareers(flags: seq<bool>, n: nat): (r: Fallback)
    requires n <= |flags|
  {
    if n == 0 then Fallback(0, false, None)
    else
      var prev := FallbackCareers(flags, n - 1);
      if flags[n - 1] then Fallback(prev.score + 100, true, Some(ChatbotScore(n - 1)))
      else prev
  }

  function FallbackScore(u: User, job: Job): (f: Fallback)
  {
    var names := CareerNames(u.chatbot.topCareers);
    var c := FallbackCareers(MatchFlags(names, job), |names|);
    Fallback(c.score + Bonuses(u, job), c.recommended, c.chatbotScore)
  }

  /** The career names among `names` that match the job, in order. */
  function MatchingCareers(names: seq<string>, job: Job): (r: seq<string>)
    ensures |r| <= |names|
  {
    Filter(names, (name: string) => CareerMatches(name, job))
  }

  /** How many of the first `n` careers match. */
  function Hits(flags: seq<bool>, n: nat): (r: nat)
    requires n <= |flags|
    ensures r <= n
  {
    if n == 0 then 0 else Hits(flags, n - 1) + (if flags[n - 1] then 1 else 0)
  }

  /** The matching careers are counted by the flags. */
  lemma {:induction false} MatchingCareersAreHits(names: seq<string>, job: Job, n: nat)
    requires n <= |names|
    ensures |MatchingCareers(names[..n], job)| == Hits(MatchFlags(names, job), n)
  {
    if n > 0 {
      MatchingCareersAreHits(names, job, n - 1);
      MatchFlagsAt(names, job, n - 1);
      assert names[..n] == names[..n - 1] + [names[n - 1]];
      FilterSnoc(names[..n - 1], names[n - 1], (name: string) => CareerMatches(name, job));
    }
  }

  /** The fallback's careers add 100 per matching career. */
  lemma {:induction false} FallbackCareersCountEveryMatch(flags: seq<bool>, n: nat)
    requires n <= |flags|
    ensures FallbackCareers(flags, n).score == 100 * Hits(flags, n)
  {
    if n > 0 {
      FallbackCareersCountEveryMatch(flags, n - 1);
    }
  }

  /** The fallback is recommended exactly when a career matches, and
      carries a chatbot score exactly then. */
  lemma {:induction false} FallbackCareersRecommendIffMatch(flags: seq<bool>, n: nat)
    requires n <= |flags|
    ensures FallbackCareers(flags, n).recommended <==> exists i :: 0 <= i < n && flags[i]
    ensures FallbackCareers(flags, n).recommended <==> Hits(flags, n) > 0
    ensures FallbackCareers(flags, n).chatbotScore.Some? == FallbackCareers(flags, n).recommended
  {
    if n > 0 {
      FallbackCareersRecommendIffMatch(flags, n - 1);
    }
  }

  /** The fallback's chatbot score is that of the last matching career. */
  lemma {:induction false} FallbackCareersKeepLastMatch(flags: seq<bool>, n: nat, i: nat)
    requires i < n <= |flags|
    requires flags[i]
    requires forall j :: i < j < n ==> !flags[j]
    ensures FallbackCareers(flags, n).chatbotScore == Some(ChatbotScore(i))
  {
    if i < n - 1 {
      FallbackCareersKeepLastMatch(flags, n - 1, i);
    }
  }

  /** The fallback's career loop as the handler runs it: no `break`. */
  method FallbackCareerLoop(careers: seq<Career>, job: Job) returns (c: Fallback)
    ensures c == FallbackCareers(MatchFlags(CareerNames(careers), job), |careers|)
  {
    var names := CareerNames(careers);
    ghost var flags := MatchFlags(names, job);
    c := Fallback(0, false, None);
    var i: nat := 0;
    while i < |names|
      invariant i <= |names|
      invariant c == FallbackCareers(flags, i)
    {
      MatchFlagsAt(names, job, i);
      if CareerMatches(names[i], job) {
        c := Fallback(c.score + 100, true, Some(ChatbotScore(i)));
      }
      i := i + 1;
    }
  }

  /** The fallback as the handler computes it: the career loop, then the bonuses. */
  method FallbackScoring(u: User, job: Job) returns (f: Fallback)
    ensures f == FallbackScore(u, job)
  {
    var c := FallbackCareerLoop(u.chatbot.topCareers, job);
    f := Fallback(c.score + Bonuses(u, job), c.recommended, c.chatbotScore);
  }

  /** The fallback agrees with the list's scorer on being recommended, and
      exceeds its score by 100 for every matching career after the first. */
  lemma FallbackVersusScore(u: User, job: Job)
    ensures var count := |MatchingCareers(CareerNames(u.chatbot.topCareers), job)|;
      && FallbackScore(u, job).recommended == Score(u, job).recommended
      && FallbackScore(u, job).score == Score(u, job).matchScore + 100 * (if count > 0 then count - 1 else 0)
  {
    var names := CareerNames(u.chatbot.topCareers);
    FallbackCareersOverAll(names, job);
    RecommendedIffSomeCareerMatches(u, job);
    assert Score(u, job).matchScore == (if Score(u, job).recommended then 100 else 0) + Bonuses(u, job);
  }

  /** Over all the career names the fallback adds 100 per matching career
      and is recommended exactly when one matches. */
  lemma FallbackCareersOverAll(names: seq<string>, job: Job)
    ensures var f := FallbackCareers(MatchFlags(names, job), |names|);
      var count := |MatchingCareers(names, job)|;
      && f.score == 100 * count
      && (f.recommended <==> count > 0)
      && (f.recommended <==> exists i :: 0 <= i < |names| && CareerMatches(names[i], job))
  {
    var flags := MatchFlags(names, job);
    FallbackCareersCountEveryMatch(flags, |names|);
    FallbackCareersRecommendIffMatch(flags, |names|);
    MatchingCareersAreHits(names, job, |names|);
    assert names[..|names|] == names;
    forall i | 0 <= i < |names|
      ensures flags[i] == CareerMatches(names[i], job)
    {
      MatchFlagsAt(names, job, i);
    }
  }

  /** The fallback's displayed match: the chatbot score when recommended,
      else 80 + score / 10 kept in [80, 95] when the score is positive, else 85. */
  function FallbackMatch(f: Fallback): (r: real)
    ensures !f.recommended && f.score > 0 ==> 80.0 <= r <= 95.0
    ensures !f.recommended && f.score <= 0 ==> r == 85.0
  {
    if f.recommended && f.chatbotScore.Some? then f.chatbotScore.value as real
    else if f.score > 0 then ClampReal(80.0, 95.0, 80.0 + (f.score as real / 150.0) * 15.0)
    else 85.0
  }

  function ClampReal(lo: real, hi: real, x: real): (r: real)
    requires lo <= hi
    ensures lo <= r <= hi
    ensures lo <= x <= hi ==> r == x
  {
    if x < lo then lo else if x > hi then hi else x
  }

  /** What the single-job view returns. */
  datatype DetailView = Plain(job: Job) | Priced(job: Job, matchValue: real, recommended: bool)

  /** The job's position in `[...recommended, ...others]` of all jobs. */
  function PositionOf(u: User, allJobs: seq<Job>, id: string): (r: Option<nat>)
    ensures r.Some? ==> r.value < |allJobs|
  {
    var sorted := Ranked(u, allJobs);
    RecsThenOthersIsRanked(u, allJobs);
    FindById(Recs(sorted) + Others(sorted), id)
  }

  /** `GET /:id?email=`: 404 for an unknown job; the plain job without an
      e-mail or a known user; otherwise the positional match the list gives
      the job's position, or, when the job is not in the list of all jobs,
      the fallback's match. */
  function JobDetail(found: Option<Job>, email: string, user: Option<User>, allJobs: seq<Job>): (r: Result<DetailView, Status>)
    ensures found.None? <==> r == Failure(NotFound)
    ensures found.Some? && (email == "" || user.None?) ==> r == Success(Plain(found.value))
  {
    if found.None? then Failure(NotFound)
    else
      var job := found.value;
      if email == "" || user.None? then Success(Plain(job))
      else
        var u := user.value;
        var sorted := Ranked(u, allJobs);
        var pos := PositionOf(u, allJobs, job.id);
        if pos.Some? then Success(Priced(job, Positional(sorted, pos.value) as real, sorted[pos.value].recommended))
        else
          var f := FallbackScore(u, job);
          Success(Priced(job, FallbackMatch(f), f.recommended))
  }

  lemma {:induction false} FallbackCareersChatbotScoreInRange(flags: seq<bool>, n: nat)
    requires n <= |flags|
    ensures FallbackCareers(flags, n).recommended ==> FallbackCareers(flags, n).chatbotScore.Some?
    ensures FallbackCareers(flags, n).chatbotScore.Some? ==> 80 <= FallbackCareers(flags, n).chatbotScore.value <= 95
  {
    if n > 0 {
      FallbackCareersChatbotScoreInRange(flags, n - 1);
    }
  }

  /** A priced job view always shows a match in [80, 95]. */
  lemma DetailMatchInRange(found: Option<Job>, email: string, user: Option<User>, allJobs: seq<Job>)
    requires JobDetail(found, email, user, allJobs).Success?
    requires JobDetail(found, email, user, allJobs).value.Priced?
    ensures 80.0 <= JobDetail(found, email, user, allJobs).value.matchValue <= 95.0
  {
    var u := user.value;
    var names := CareerNames(u.chatbot.topCareers);
    FallbackCareersChatbotScoreInRange(MatchFlags(names, found.value), |names|);
  }

  /** With distinct job ids, the single-job view of a listed job shows the
      match and flag the list shows for it. */
  lemma DetailAgreesWithListing(u: User, jobs: seq<Job>, email: string, i: nat)
    requires forall a, b :: 0 <= a < b < |jobs| ==> jobs[a].id != jobs[b].id
    requires email != ""
    requires Recommendations(Some(u), jobs).Success?
    requires i < |Recommendations(Some(u), jobs).value|
    requires Recommendations(Some(u), jobs).value[i].job.id != ""
    ensures var l := Recommendations(Some(u), jobs).value[i];
      JobDetail(Some(l.job), email, Some(u), jobs) == Success(Priced(l.job, l.matchValue as real, l.recommended))
  {
    ServerErrorIffCareersButNoMatch(u, jobs);
    var sorted := Ranked(u, jobs);
    RankedIdsDistinct(u, jobs);
    FindByDistinctId(sorted, i);
    RecsThenOthersIsRanked(u, jobs);
    assert PositionOf(u, jobs, sorted[i].job.id) == Some(i);
  }

  /** Distinct job ids stay distinct in the ranking. */
  lemma RankedIdsDistinct(u: User, jobs: seq<Job>)
    requires forall a, b :: 0 <= a < b < |jobs| ==> jobs[a].id != jobs[b].id
    ensures var r := Ranked(u, jobs);
      forall a, b :: 0 <= a < b < |r| ==> r[a].job.id != r[b].job.id
  {
    var scored := ScoreAll(u, jobs);
    forall a, b | 0 <= a < b < |scored|
      ensures IdOf(scored[a]) != IdOf(scored[b])
    {
      assert scored[a].job == jobs[a] && scored[b].job == jobs[b];
    }
    SortKeepsKeysDistinct(scored, Precedes, IdOf);
    var r := Sort(scored, Precedes);
    forall a, b | 0 <= a < b < |r|
      ensures r[a].job.id != r[b].job.id
    {
      assert IdOf(r[a]) != IdOf(r[b]);
    }
  }

  function IdOf(s: Scored): string {
    s.job.id
  }

  /** With distinct ids, looking up the id of the entry at `i` finds `i`. */
  lemma FindByDistinctId(s: seq<Scored>, i: nat)
    requires forall a, b :: 0 <= a < b < |s| ==> s[a].job.id != s[b].job.id
    requires i < |s| && s[i].job.id != ""
    ensures FindById(s, s[i].job.id) == Some(i)
  {
  }
}
