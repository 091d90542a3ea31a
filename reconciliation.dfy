/** The greedy reconciliation of the recommendation handler, run when the
    user has chatbot careers but no job matched one: each career, in order,
    claims the first unclaimed other job with the strictly highest positive
    relevance, which becomes recommended with the career's positional
    chatbot score. */
module Reconciliation {
  import opened Wrappers
  import opened Strings
  import opened Models
  import opened Scoring
  import opened Sorting

  /** "title tag tag ..." lower-cased (the company is not part of it here). */
  function TitleAndTags(job: Job): string {
    Lower(job.title) + " " + Join(LowerAll(job.tags), " ")
  }

  /** Some tag, lower-cased, contains `word`. */
  predicate SomeTagContains(tags: seq<string>, word: string) {
    exists k :: 0 <= k < |tags| && Contains(Lower(tags[k]), word)
  }

  /** The points one keyword earns: 10 when it occurs in the title-and-tags
      text, 15 more when it occurs in the title. */
  function KeywordPoints(keyword: string, job: Job): (r: nat)
    ensures r in {0, 10, 15, 25}
  {
    (if Contains(TitleAndTags(job), keyword) then 10 else 0)
    + (if Contains(Lower(job.title), keyword) then 15 else 0)
  }

  /** The points of the first `n` keywords, summed in order. */
  function KeywordRelevance(keywords: seq<string>, job: Job, n: nat): (r: nat)
    requires n <= |keywords|
    ensures r <= 25 * n
  {
    if n == 0 then 0 else KeywordRelevance(keywords, job, n - 1) + KeywordPoints(keywords[n - 1], job)
  }

  /** The fixed hints: teacher/teaching, bank/banking, health, agriculture
      and government tags earn 20 each, a rural career and a rural job 15. */
  function HintRelevance(name: string, job: Job): (r: nat)
    ensures r <= 115
  {
    (if Contains(name, "teacher") && SomeTagContains(job.tags, "teaching") then 20 else 0)
    + (if Contains(name, "bank") && SomeTagContains(job.tags, "banking") then 20 else 0)
    + (if Contains(name, "health") && SomeTagContains(job.tags, "health") then 20 else 0)
    + (if Contains(name, "agriculture") && SomeTagContains(job.tags, "agriculture") then 20 else 0)
    + (if Contains(name, "government") && SomeTagContains(job.tags, "government") then 20 else 0)
    + (if Contains(name, "rural") && job.isRural then 15 else 0)
  }

  /** The relevance of a job to a (lower-cased) career name. */
  function Relevance(name: string, job: Job): (r: nat)
    ensures r <= 25 * |Keywords(name)| + 115
  {
    KeywordRelevance(Keywords(name), job, |Keywords(name)|) + HintRelevance(name, job)
  }

  lemma {:induction false} KeywordRelevancePositive(keywords: seq<string>, job: Job, n: nat)
    requires n <= |keywords|
    ensures KeywordRelevance(keywords, job, n) > 0 <==>
      exists k :: 0 <= k < n && Contains(TitleAndTags(job), keywords[k])
  {
    if n > 0 {
      KeywordRelevancePositive(keywords, job, n - 1);
      var kw := keywords[n - 1];
      if Contains(Lower(job.title), kw) {
        ContainsWithin([], Lower(job.title), " " + Join(LowerAll(job.tags), " "), kw);
        assert [] + Lower(job.title) + (" " + Join(LowerAll(job.tags), " ")) == TitleAndTags(job);
      }
    }
  }

  /** A job is relevant to a career exactly when a keyword of the career
      occurs in the job's title-and-tags text or one of the fixed hints applies. */
  lemma RelevancePositiveIff(name: string, job: Job)
    ensures Relevance(name, job) > 0 <==>
      (exists k :: 0 <= k < |Keywords(name)| && Contains(TitleAndTags(job), Keywords(name)[k]))
      || HintRelevance(name, job) > 0
  {
    KeywordRelevancePositive(Keywords(name), job, |Keywords(name)|);
  }

  /** Computes the relevance as the handler does: the keywords one by one,
      then the fixed hints. */
  method RelevanceOf(name: string, job: Job) returns (r: nat)
    ensures r == Relevance(name, job)
  {
    var fromKeywords := KeywordRelevanceOf(Keywords(name), job);
    var fromHints := HintRelevanceOf(name, job);
    r := fromKeywords + fromHints;
  }

  method KeywordRelevanceOf(keywords: seq<string>, job: Job) returns (r: nat)
    ensures r == KeywordRelevance(keywords, job, |keywords|)
  {
    r := 0;
    var i: nat := 0;
    while i < |keywords|
      invariant i <= |keywords|
      invariant r == KeywordRelevance(keywords, job, i)
    {
      var text := TitleAndTags(job);
      if Contains(text, keywords[i]) { r := r + 10; }
      if Contains(Lower(job.title), keywords[i]) { r := r + 15; }
      i := i + 1;
    }
  }

  method HintRelevanceOf(name: string, job: Job) returns (r: nat)
    ensures r == HintRelevance(name, job)
  {
    r := 0;
    if Contains(name, "teacher") && SomeTagContains(job.tags, "teaching") { r := r + 20; }
    if Contains(name, "bank") && SomeTagContains(job.tags, "banking") { r := r + 20; }
    if Contains(name, "health") && SomeTagContains(job.tags, "health") { r := r + 20; }
    if Contains(name, "agriculture") && SomeTagContains(job.tags, "agriculture") { r := r + 20; }
    if Contains(name, "government") && SomeTagContains(job.tags, "government") { r := r + 20; }
    if Contains(name, "rural") && job.isRural { r := r + 15; }
  }

  // ------------------------------------------------------------- best job

  /** The relevance of every other job to a career, in order. */
  function Relevances(name: string, others: seq<Scored>): (r: seq<int>)
    ensures |r| == |others|
  {
    if others == [] then [] else [Relevance(name, others[0].job)] + Relevances(name, others[1..])
  }

  lemma {:induction false} RelevancesAt(name: string, others: seq<Scored>, j: nat)
    requires j < |others|
    ensures Relevances(name, others)[j] == Relevance(name, others[j].job)
  {
    if j > 0 {
      RelevancesAt(name, others[1..], j - 1);
    }
  }

  /** Which other jobs no earlier career has claimed. */
  function FreeJobs(others: seq<Scored>, claimed: set<string>): (r: seq<bool>)
    ensures |r| == |others|
  {
    if others == [] then [] else [others[0].job.id !in claimed] + FreeJobs(others[1..], claimed)
  }

  lemma {:induction false} FreeJobsAt(others: seq<Scored>, claimed: set<string>, j: nat)
    requires j < |others|
    ensures FreeJobs(others, claimed)[j] <==> others[j].job.id !in claimed
  {
    if j > 0 {
      FreeJobsAt(others[1..], claimed, j - 1);
    }
  }

  /** The scan over the first `n` jobs, given their relevances and which of
      them are free: the best job so far and its score, starting from
      (none, 0); a free job replaces the best only with a strictly higher
      relevance. */
  function BestAmong(rels: seq<int>, free: seq<bool>, n: nat): (r: (Option<nat>, int))
    requires n <= |rels| && n <= |free|
    ensures r.0.Some? ==> r.0.value < n && free[r.0.value] && r.1 == rels[r.0.value] && r.1 > 0
    ensures r.0.None? ==> r.1 == 0
  {
    if n == 0 then (None, 0)
    else
      var prev := BestAmong(rels, free, n - 1);
      if free[n - 1] && rels[n - 1] > prev.1 then (Some(n - 1), rels[n - 1]) else prev
  }

  /** One step of the scan, stated once so that callers need not unfold it:
      a job that is not free, or not more relevant than the best so far,
      leaves the best as it is. */
  lemma ScanStep(rels: seq<int>, free: seq<bool>, i: nat, isFree: bool, rel: int)
    requires i < |rels| && i < |free| && free[i] == isFree && (isFree ==> rels[i] == rel)
    ensures BestAmong(rels, free, i + 1) ==
      if isFree && rel > BestAmong(rels, free, i).1 then (Some(i), rel) else BestAmong(rels, free, i)
  {
  }

  /** The best unclaimed other job for a (lower-cased) career name. */
  function Best(name: string, others: seq<Scored>, claimed: set<string>): (Option<nat>, int) {
    BestAmong(Relevances(name, others), FreeJobs(others, claimed), |others|)
  }

  /** The scan's result is a maximum over the free jobs, and the first one. */
  lemma {:induction false} BestAmongIsFirstMaximum(rels: seq<int>, free: seq<bool>, n: nat)
    requires n <= |rels| && n <= |free|
    ensures forall j :: 0 <= j < n && free[j] ==> rels[j] <= BestAmong(rels, free, n).1
    ensures BestAmong(rels, free, n).0.Some? ==>
      forall j :: 0 <= j < BestAmong(rels, free, n).0.value && free[j] ==> rels[j] < BestAmong(rels, free, n).1
  {
    if n > 0 {
      BestAmongIsFirstMaximum(rels, free, n - 1);
      var prev := BestAmong(rels, free, n - 1);
      if free[n - 1] && rels[n - 1] > prev.1 {
        var top: nat := n - 1;
        assert BestAmong(rels, free, n) == (Some(top), rels[top]);
      } else {
        assert BestAmong(rels, free, n) == prev;
      }
    }
  }

  /** The scan finds the first unclaimed job of strictly highest positive
      relevance, or nothing when every unclaimed job has relevance 0. */
  lemma BestIsFirstMaximum(name: string, others: seq<Scored>, claimed: set<string>)
    ensures var (best, score) := Best(name, others, claimed);
      && (forall j :: 0 <= j < |others| && others[j].job.id !in claimed ==> Relevance(name, others[j].job) <= score)
      && (best.None? ==> score == 0)
      && (best.Some? ==>
            && best.value < |others|
            && others[best.value].job.id !in claimed
            && score == Relevance(name, others[best.value].job) > 0
            && (forall j :: 0 <= j < best.value && others[j].job.id !in claimed ==>
                  Relevance(name, others[j].job) < score))
  {
    var rels, free := Relevances(name, others), FreeJobs(others, claimed);
    BestAmongIsFirstMaximum(rels, free, |others|);
    forall j | 0 <= j < |others|
      ensures rels[j] == Relevance(name, others[j].job) && (free[j] <==> others[j].job.id !in claimed)
    {
      RelevancesAt(name, others, j);
      FreeJobsAt(others, claimed, j);
    }
  }

  /** The inner `forEach` callback for the job at position `i`: a claimed
      job is skipped; otherwise its relevance is computed and it becomes the
      best so far when strictly more relevant. */
  method ConsiderJob(name: string, others: seq<Scored>, claimed: set<string>, i: nat,
                     best: Option<nat>, bestScore: int) returns (best': Option<nat>, bestScore': int)
    requires i < |others|
    requires (best, bestScore) == BestAmong(Relevances(name, others), FreeJobs(others, claimed), i)
    ensures (best', bestScore') == BestAmong(Relevances(name, others), FreeJobs(others, claimed), i + 1)
  {
    best', bestScore' := best, bestScore;
    var unclaimed := others[i].job.id !in claimed;
    var rel := 0;
    if unclaimed {
      rel := RelevanceOf(name, others[i].job);
    }
    FreeJobsAt(others, claimed, i);
    RelevancesAt(name, others, i);
    ScanStep(Relevances(name, others), FreeJobs(others, claimed), i, unclaimed, rel);
    if unclaimed && rel > bestScore {
      best', bestScore' := Some(i), rel;
    }
  }

  /** Finds the best job for one career, as the inner `forEach` does. */
  method BestJob(name: string, others: seq<Scored>, claimed: set<string>) returns (best: Option<nat>, bestScore: int)
    ensures (best, bestScore) == Best(name, others, claimed)
  {
    best := None;
    bestScore := 0;
    var i: nat := 0;
    while i < |others|
      invariant i <= |others|
      invariant (best, bestScore) == BestAmong(Relevances(name, others), FreeJobs(others, claimed), i)
    {
      best, bestScore := ConsiderJob(name, others, claimed, i, best, bestScore);
      i := i + 1;
    }
  }

  // ----------------------------------------------------------- all careers

  /** Every row of a relevance table has one entry per other job. */
  predicate Shaped(table: seq<seq<int>>, others: seq<Scored>) {
    forall c :: 0 <= c < |table| ==> |table[c]| == |others|
  }

  /** The relevance table: for each career in order, the relevance of every
      other job to its lower-cased name. Relevance does not depend on what
      is claimed, so the handler's lazily computed relevances are its
      entries. */
  function Table(careers: seq<Career>, others: seq<Scored>): (t: seq<seq<int>>)
    ensures |t| == |careers| && Shaped(t, others)
  {
    if careers == [] then [] else [Relevances(Lower(careers[0].name), others)] + Table(careers[1..], others)
  }

  lemma {:induction false} TableAt(careers: seq<Career>, others: seq<Scored>, c: nat)
    requires c < |careers|
    ensures Table(careers, others)[c] == Relevances(Lower(careers[c].name), others)
  {
    if c > 0 {
      TableAt(careers[1..], others, c - 1);
    }
  }

  /** One career's turn: career `c`, whose relevances to the other jobs are
      `row`, claims the best free job, if any, which joins the claimed list
      as recommended with the career's chatbot score. */
  function ClaimNext(others: seq<Scored>, row: seq<int>, prev: (seq<Scored>, set<string>), c: nat)
    : (r: (seq<Scored>, set<string>))
    requires |row| == |others|
    ensures r.0 == prev.0 ==> r == prev
    ensures r.0 != prev.0 ==>
      && |r.0| == |prev.0| + 1 && r.0[..|prev.0|] == prev.0
      && var added := r.0[|prev.0|];
      && added.recommended && added.chatbotScore == Some(ChatbotScore(c))
      && added.job.id !in prev.1 && r.1 == prev.1 + {added.job.id}
      && ClaimedFrom(others, added)
  {
    var best := BestAmong(row, FreeJobs(others, prev.1), |others|).0;
    if best.Some? then
      var job := others[best.value];
      FreeJobsAt(others, prev.1, best.value);
      (prev.0 + [Scored(job.job, job.matchScore, true, Some(ChatbotScore(c)))], prev.1 + {job.job.id})
    else prev
  }

  /** The jobs claimed by the first `c` careers of a relevance table, in
      claiming order, and the set of claimed job ids. */
  function ClaimWith(others: seq<Scored>, table: seq<seq<int>>, c: nat): (r: (seq<Scored>, set<string>))
    requires c <= |table| && Shaped(table, others)
  {
    if c == 0 then ([], {}) else ClaimNext(others, table[c - 1], ClaimWith(others, table, c - 1), c - 1)
  }

  /** The jobs the first `c` careers claim. */
  function ClaimUpTo(careers: seq<Career>, others: seq<Scored>, c: nat): (r: (seq<Scored>, set<string>))
    requires c <= |careers|
  {
    ClaimWith(others, Table(careers, others), c)
  }

  /** The outer `forEach` callback for career `c`: its best job, when one
      has a positive relevance, is claimed with the career's chatbot score. */
  method ClaimCareer(careers: seq<Career>, others: seq<Scored>, c: nat, claimedJobs: seq<Scored>, claimed: set<string>)
    returns (claimedJobs': seq<Scored>, claimed': set<string>)
    requires c < |careers|
    requires (claimedJobs, claimed) == ClaimUpTo(careers, others, c)
    ensures (claimedJobs', claimed') == ClaimUpTo(careers, others, c + 1)
  {
    claimedJobs', claimed' := claimedJobs, claimed;
    var best, score := BestJob(Lower(careers[c].name), others, claimed);
    TableAt(careers, others, c);
    if best.Some? && score > 0 {
      var job := others[best.value];
      claimed' := claimed + {job.job.id};
      claimedJobs' := claimedJobs + [Scored(job.job, job.matchScore, true, Some(ChatbotScore(c)))];
    }
  }

  /** Runs every career in order, as the outer `forEach` does. */
  method Reconcile(careers: seq<Career>, others: seq<Scored>) returns (claimedJobs: seq<Scored>, claimed: set<string>)
    ensures (claimedJobs, claimed) == ClaimUpTo(careers, others, |careers|)
  {
    claimedJobs := [];
    claimed := {};
    var c: nat := 0;
    while c < |careers|
      invariant c <= |careers|
      invariant (claimedJobs, claimed) == ClaimUpTo(careers, others, c)
    {
      claimedJobs, claimed := ClaimCareer(careers, others, c, claimedJobs, claimed);
      c := c + 1;
    }
  }

  /** `chatbotMatchScore || 0`. */
  function ChatbotScoreOrZero(s: Scored): int {
    if s.chatbotScore.Some? then s.chatbotScore.value else 0
  }

  /** The comparator of the re-sort: a higher chatbot score comes first. */
  predicate ByChatbotScore(a: Scored, b: Scored) {
    ChatbotScoreOrZero(a) > ChatbotScoreOrZero(b)
  }

  /** `s` is one of the other jobs with its score, marked as recommended. */
  predicate ClaimedFrom(others: seq<Scored>, s: Scored) {
    exists j :: 0 <= j < |others| && others[j].job == s.job && others[j].matchScore == s.matchScore
  }

  /** `s` is a job claimed by one of the first `c` careers: one of the other
      jobs, now recommended, with a chatbot score in [80, 95], whose id is in
      the claimed set. */
  predicate ClaimedBefore(others: seq<Scored>, s: Scored, c: nat, claimed: set<string>) {
    && s.recommended
    && s.chatbotScore.Some?
    && ChatbotScore(c) <= s.chatbotScore.value <= 95
    && s.job.id in claimed
    && ClaimedFrom(others, s)
  }

  /** Every claimed job is one of the other jobs, now recommended, with a
      chatbot score in [80, 95], and its id is in the claimed set. */
  lemma {:induction false} ClaimsComeFromOthers(others: seq<Scored>, table: seq<seq<int>>, c: nat)
    requires c <= |table| && Shaped(table, others)
    ensures |ClaimWith(others, table, c).0| <= c
    ensures forall k :: 0 <= k < |ClaimWith(others, table, c).0| ==>
      ClaimedBefore(others, ClaimWith(others, table, c).0[k], c, ClaimWith(others, table, c).1)
  {
    if c > 0 {
      ClaimsComeFromOthers(others, table, c - 1);
      var prev := ClaimWith(others, table, c - 1);
      var r := ClaimWith(others, table, c);
      assert prev.1 <= r.1;
      forall k | 0 <= k < |r.0|
        ensures ClaimedBefore(others, r.0[k], c, r.1)
      {
        if k < |prev.0| {
          assert r.0[k] == r.0[..|prev.0|][k];
          ClaimedLater(others, prev.0[k], c, prev.1, r.1);
        } else {
          ChatbotScoreNonIncreasing(c - 1, c);
        }
      }
    }
  }

  /** A job claimed by the first `c - 1` careers is still claimed after
      career `c - 1` has had its turn. */
  lemma ClaimedLater(others: seq<Scored>, s: Scored, c: nat, before: set<string>, after: set<string>)
    requires c > 0 && ClaimedBefore(others, s, c - 1, before) && before <= after
    ensures ClaimedBefore(others, s, c, after)
  {
    ChatbotScoreNonIncreasing(c - 1, c);
  }

  /** Every claimed id belongs to a claimed job. */
  lemma {:induction false} ClaimedIdsAreListed(others: seq<Scored>, table: seq<seq<int>>, c: nat)
    requires c <= |table| && Shaped(table, others)
    ensures forall id :: id in ClaimWith(others, table, c).1 ==>
      exists k :: 0 <= k < |ClaimWith(others, table, c).0| && ClaimWith(others, table, c).0[k].job.id == id
  {
    if c > 0 {
      ClaimedIdsAreListed(others, table, c - 1);
      var prev := ClaimWith(others, table, c - 1);
      var r := ClaimWith(others, table, c);
      forall id | id in r.1
        ensures exists k :: 0 <= k < |r.0| && r.0[k].job.id == id
      {
        if id in prev.1 {
          var k :| 0 <= k < |prev.0| && prev.0[k].job.id == id;
          assert r.0[k] == r.0[..|prev.0|][k];
        } else {
          assert r.0[|prev.0|].job.id == id;
        }
      }
    }
  }

  /** No job id is claimed twice. */
  lemma {:induction false} ClaimsAreDistinct(others: seq<Scored>, table: seq<seq<int>>, c: nat)
    requires c <= |table| && Shaped(table, others)
    ensures var claimedJobs := ClaimWith(others, table, c).0;
      forall a, b :: 0 <= a < b < |claimedJobs| ==> claimedJobs[a].job.id != claimedJobs[b].job.id
  {
    if c > 0 {
      ClaimsAreDistinct(others, table, c - 1);
      ClaimsComeFromOthers(others, table, c - 1);
      var prev := ClaimWith(others, table, c - 1);
      var r := ClaimWith(others, table, c);
      forall a, b | 0 <= a < b < |r.0|
        ensures r.0[a].job.id != r.0[b].job.id
      {
        assert r.0[a] == r.0[..|prev.0|][a];
        if b < |prev.0| {
          assert r.0[b] == r.0[..|prev.0|][b];
        } else {
          assert ClaimedBefore(others, prev.0[a], c - 1, prev.1);
        }
      }
    }
  }

  /** No later entry has a higher chatbot score than an earlier one. */
  predicate NonIncreasingScores(s: seq<Scored>) {
    forall a, b :: 0 <= a < b < |s| ==> ChatbotScoreOrZero(s[b]) <= ChatbotScoreOrZero(s[a])
  }

  /** Every job claimed by the first `c` careers has a chatbot score of at
      least that of the `c`-th career. */
  lemma {:induction false} ClaimScoresAtLeast(others: seq<Scored>, table: seq<seq<int>>, c: nat)
    requires c <= |table| && Shaped(table, others)
    ensures forall k :: 0 <= k < |ClaimWith(others, table, c).0| ==>
      ChatbotScore(c) <= ChatbotScoreOrZero(ClaimWith(others, table, c).0[k])
  {
    if c > 0 {
      ClaimScoresAtLeast(others, table, c - 1);
      ChatbotScoreNonIncreasing(c - 1, c);
      var prev := ClaimWith(others, table, c - 1);
      var r := ClaimWith(others, table, c);
      forall k | 0 <= k < |r.0|
        ensures ChatbotScore(c) <= ChatbotScoreOrZero(r.0[k])
      {
        if k < |prev.0| {
          assert r.0[k] == r.0[..|prev.0|][k];
        }
      }
    }
  }

  /** The claimed list never increases in chatbot score. */
  lemma {:induction false} ClaimsAreDescending(others: seq<Scored>, table: seq<seq<int>>, c: nat)
    requires c <= |table| && Shaped(table, others)
    ensures NonIncreasingScores(ClaimWith(others, table, c).0)
  {
    if c > 0 {
      ClaimsAreDescending(others, table, c - 1);
      ClaimScoresAtLeast(others, table, c - 1);
      var prev := ClaimWith(others, table, c - 1);
      var r := ClaimWith(others, table, c);
      forall a, b | 0 <= a < b < |r.0|
        ensures ChatbotScoreOrZero(r.0[b]) <= ChatbotScoreOrZero(r.0[a])
      {
        assert r.0[a] == r.0[..|prev.0|][a];
        if b < |prev.0| {
          assert r.0[b] == r.0[..|prev.0|][b];
        }
      }
    }
  }

  lemma ChatbotScoreNonIncreasing(i: nat, j: nat)
    requires i <= j
    ensures ChatbotScore(j) <= ChatbotScore(i)
  {
  }

  /** The handler's re-sort by chatbot score leaves the claimed list as it is. */
  lemma ResortIsIdentity(careers: seq<Career>, others: seq<Scored>)
    ensures Sort(ClaimUpTo(careers, others, |careers|).0, ByChatbotScore) == ClaimUpTo(careers, others, |careers|).0
  {
    var claimedJobs := ClaimUpTo(careers, others, |careers|).0;
    ClaimsAreDescending(others, Table(careers, others), |careers|);
    assert SortedBy(claimedJobs, ByChatbotScore);
    SortOfSorted(claimedJobs, ByChatbotScore);
  }
}
