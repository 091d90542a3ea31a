/** The job scorer of the recommendation handler: a job earns 100 points for
    the first chatbot-recommended career (in career-map order) it matches, plus
    fixed bonuses for category, location, overlapping tags and stream. */
module Scoring {
  import opened Wrappers
  import opened Strings
  import opened Models

  /** An entry of the career map: lower-cased career name and the index of
      the career it came from. */
  datatype CareerEntry = CareerEntry(name: string, index: nat)

  /** A job with the three values the scorer writes onto it. */
  datatype Scored = Scored(job: Job, matchScore: int, recommended: bool, chatbotScore: Option<int>)

  predicate NamesDistinct(m: seq<CareerEntry>) {
    forall a, b :: 0 <= a < b < |m| ==> m[a].name != m[b].name
  }

  /** Assigning `map[name] = {index}` on a JavaScript object: an existing key
      keeps its position and takes the new index, a new key goes last. */
  function Assign(m: seq<CareerEntry>, name: string, index: nat): (r: seq<CareerEntry>)
    ensures |r| == |m| || |r| == |m| + 1
  {
    if m == [] then [CareerEntry(name, index)]
    else if m[0].name == name then [CareerEntry(name, index)] + m[1..]
    else [m[0]] + Assign(m[1..], name, index)
  }

  /** Each entry after an assignment is the assigned one or the entry that
      was at that position; the assigned entry is present, names are kept. */
  lemma {:induction false} AssignEntries(m: seq<CareerEntry>, name: string, index: nat)
    ensures var r := Assign(m, name, index);
      (forall k :: 0 <= k < |r| ==> r[k] == CareerEntry(name, index) || (k < |m| && r[k] == m[k]))
      && (forall k :: 0 <= k < |m| ==> r[k].name == m[k].name)
      && CareerEntry(name, index) in r
  {
    if m != [] && m[0].name != name {
      AssignEntries(m[1..], name, index);
      var rest := Assign(m[1..], name, index);
      var r := [m[0]] + rest;
      assert forall k :: 1 <= k < |r| ==> r[k] == rest[k - 1];
      assert forall k :: 1 <= k < |m| ==> m[k] == m[1..][k - 1];
    }
  }

  /** With distinct names, the assigned name holds the assigned index and
      names stay distinct. */
  lemma {:induction false} AssignDistinct(m: seq<CareerEntry>, name: string, index: nat)
    requires NamesDistinct(m)
    ensures var r := Assign(m, name, index);
      NamesDistinct(r) && forall k :: 0 <= k < |r| && r[k].name == name ==> r[k].index == index
  {
    var r := Assign(m, name, index);
    if m == [] {
    } else if m[0].name == name {
      assert r == [CareerEntry(name, index)] + m[1..];
      assert forall k :: 0 <= k < |r| ==> r[k].name == m[k].name;
      forall k | 0 < k < |r|
        ensures r[k].name != name
      {
        assert r[k] == m[k];
      }
    } else {
      AssignDistinct(m[1..], name, index);
      AssignEntries(m[1..], name, index);
      var rest := Assign(m[1..], name, index);
      assert r == [m[0]] + rest;
      forall a, b | 0 <= a < b < |r|
        ensures r[a].name != r[b].name
      {
        assert r[b] == rest[b - 1];
        if a == 0 {
          if rest[b - 1] != CareerEntry(name, index) {
            assert rest[b - 1] == m[1..][b - 1] == m[b];
          }
        } else {
          assert r[a] == rest[a - 1];
        }
      }
      forall k | 0 <= k < |r| && r[k].name == name
        ensures r[k].index == index
      {
        if k > 0 {
          assert r[k] == rest[k - 1];
        }
      }
    }
  }

  /** The lower-cased career names, `(career.name || '').toLowerCase()`. */
  function CareerNames(careers: seq<Career>): (r: seq<string>)
    ensures |r| == |careers|
    ensures forall k :: 0 <= k < |careers| ==> r[k] == Lower(careers[k].name)
  {
    if careers == [] then [] else [Lower(careers[0].name)] + CareerNames(careers[1..])
  }

  /** The career map built by the handler's forEach: the names assigned one
      after the other with their index. */
  function CareerMap(names: seq<string>): (m: seq<CareerEntry>)
  {
    if names == [] then []
    else
      var n := |names| - 1;
      Assign(CareerMap(names[..n]), names[n], n)
  }

  /** One entry per distinct name; each holds an index at which its name appears. */
  lemma {:induction false} CareerMapEntries(names: seq<string>)
    ensures var m := CareerMap(names);
      NamesDistinct(m)
      && forall k :: 0 <= k < |m| ==> m[k].index < |names| && names[m[k].index] == m[k].name
  {
    if names != [] {
      var n := |names| - 1;
      var prev := CareerMap(names[..n]);
      CareerMapEntries(names[..n]);
      AssignEntries(prev, names[n], n);
      AssignDistinct(prev, names[n], n);
      var m := CareerMap(names);
      forall k | 0 <= k < |m|
        ensures m[k].index < |names| && names[m[k].index] == m[k].name
      {
        if m[k] != CareerEntry(names[n], n) {
          assert names[..n][prev[k].index] == names[prev[k].index];
        }
      }
    }
  }

  /** Every career name has an entry in the map. */
  lemma {:induction false} CareerMapCoversNames(names: seq<string>, i: nat)
    requires i < |names|
    ensures exists k :: 0 <= k < |CareerMap(names)| && CareerMap(names)[k].name == names[i]
  {
    var n := |names| - 1;
    var prev := CareerMap(names[..n]);
    var m := CareerMap(names);
    assert m == Assign(prev, names[n], n);
    AssignEntries(prev, names[n], n);
    if i < n {
      CareerMapCoversNames(names[..n], i);
      var k :| 0 <= k < |prev| && prev[k].name == names[..n][i];
      assert m[k].name == prev[k].name;
      assert m[k].name == names[i];
    } else {
      assert i == n && CareerEntry(names[n], n) in m;
    }
  }

  /** The index an entry holds is the LAST one at which its name appears: a
      repeated name overwrites the index but keeps its first position. */
  lemma {:induction false} CareerMapKeepsLastIndex(names: seq<string>, k: nat, j: nat)
    requires k < |CareerMap(names)| && CareerMap(names)[k].index < j < |names|
    ensures names[j] != CareerMap(names)[k].name
  {
    var n := |names| - 1;
    var prev := CareerMap(names[..n]);
    var m := CareerMap(names);
    CareerMapEntries(names[..n]);
    AssignEntries(prev, names[n], n);
    AssignDistinct(prev, names[n], n);
    var e := m[k];
    assert e.index != n;
    assert e.name != names[n];
    assert k < |prev| && e == prev[k];
    if j < n {
      CareerMapKeepsLastIndex(names[..n], k, j);
      assert names[..n][j] == names[j];
      assert names[j] != e.name;
    } else {
      assert j == n;
      assert names[j] != e.name;
    }
  }

  /** Keywords of a career name: the pieces between `[\s+&,]` longer than 2. */
  function Keywords(name: string): (r: seq<string>)
    ensures forall k :: 0 <= k < |r| ==> |r[k]| > 2
  {
    LongPieces(SplitOnSeparators(name))
  }

  function LongPieces(pieces: seq<string>): (r: seq<string>)
    ensures forall k :: 0 <= k < |r| ==> |r[k]| > 2
    ensures forall k :: 0 <= k < |r| ==> r[k] in pieces
  {
    if pieces == [] then []
    else (if |pieces[0]| > 2 then [pieces[0]] else []) + LongPieces(pieces[1..])
  }

  function LowerAll(s: seq<string>): (r: seq<string>)
    ensures |r| == |s|
    ensures forall k :: 0 <= k < |s| ==> r[k] == Lower(s[k])
  {
    if s == [] then [] else [Lower(s[0])] + LowerAll(s[1..])
  }

  function TitleText(job: Job): string {
    Lower(job.title)
  }

  /** "title company tag tag ..." lower-cased. */
  function JobText(job: Job): string {
    Lower(job.title) + " " + Lower(job.company) + " " + Join(LowerAll(job.tags), " ")
  }

  predicate KeywordHit(name: string, job: Job) {
    var kws := Keywords(name);
    exists k :: 0 <= k < |kws| && (Contains(JobText(job), kws[k]) || Contains(TitleText(job), kws[k]))
  }

  predicate ExactHit(name: string, job: Job) {
    Contains(TitleText(job), name) || Contains(name, TitleText(job)) || Contains(JobText(job), name)
  }

  /** A (lower-cased) career name matches a job by a keyword or as a whole. */
  predicate CareerMatches(name: string, job: Job) {
    KeywordHit(name, job) || ExactHit(name, job)
  }

  /** The position of the first map entry that matches, as the loop with
      `break` finds it. */
  function FirstMatch(m: seq<CareerEntry>, job: Job): (r: Option<nat>)
    ensures r.Some? ==>
      r.value < |m| && CareerMatches(m[r.value].name, job)
      && forall j :: 0 <= j < r.value ==> !CareerMatches(m[j].name, job)
    ensures r.None? ==> forall k :: 0 <= k < |m| ==> !CareerMatches(m[k].name, job)
  {
    if m == [] then None
    else if CareerMatches(m[0].name, job) then Some(0)
    else
      var r := FirstMatch(m[1..], job);
      if r.Some? then Some(r.value + 1) else None
  }

  /** The score a chatbot career gives by its position: 95, 92, 89, ... never
      below 80. */
  function ChatbotScore(index: nat): (r: int)
    ensures 80 <= r <= 95
    ensures index <= 5 ==> r == 95 - 3 * index
    ensures index >= 5 ==> r == 80
  {
    var base := 95 - index * 3;
    if base < 80 then 80 else if base > 95 then 95 else base
  }

  /** `careerPath || 'General'`. */
  function CareerPathOrGeneral(u: User): string {
    if u.chatbot.careerPath == "" then "General" else u.chatbot.careerPath
  }

  function CategoryBonus(path: string, job: Job): (r: int)
    ensures 0 <= r <= 125
  {
    (if Contains(path, "Degree") && job.category == DegreeBased then 30 else 0)
    + (if Contains(path, "Arts") && job.category == CommunicationArts then 30 else 0)
    + (if Contains(path, "Skill") && job.category == SkillBased then 30 else 0)
    + (if Contains(path, "Rural") && job.isRural then 35 else 0)
  }

  function LocationBonus(u: User, job: Job): (r: int)
    ensures 0 <= r <= 35
  {
    (if StateOf(u) != "" && job.state == StateOf(u) then 20 else 0)
    + (if DistrictOf(u) != "" && job.district == DistrictOf(u) then 15 else 0)
  }

  /** A tag overlaps an interest when either contains the other, ignoring case. */
  predicate TagOverlaps(tag: string, interests: seq<string>) {
    exists i :: 0 <= i < |interests| &&
      (Contains(Lower(interests[i]), Lower(tag)) || Contains(Lower(tag), Lower(interests[i])))
  }

  function OverlappingTags(tags: seq<string>, interests: seq<string>): (r: nat)
    ensures r <= |tags|
    ensures interests == [] ==> r == 0
  {
    if tags == [] then 0
    else (if TagOverlaps(tags[0], interests) then 1 else 0) + OverlappingTags(tags[1..], interests)
  }

  predicate HasAnyTag(tags: seq<string>, wanted: seq<string>) {
    exists k :: 0 <= k < |tags| && tags[k] in wanted
  }

  function StreamBonus(stream: string, tags: seq<string>): (r: int)
    ensures r == 0 || r == 15
    ensures r == 15 ==> stream in {"Science", "Commerce", "Arts"}
  {
    (if stream == "Science" && HasAnyTag(tags, ["Tech", "Coding", "Data", "AI"]) then 15 else 0)
    + (if stream == "Commerce" && HasAnyTag(tags, ["Finance", "Business", "Banking"]) then 15 else 0)
    + (if stream == "Arts" && HasAnyTag(tags, ["Design", "Creative", "Writing"]) then 15 else 0)
  }

  /** Everything the scorer adds besides the chatbot-career points. */
  function Bonuses(u: User, job: Job): (r: int)
    ensures r >= 0
  {
    CategoryBonus(CareerPathOrGeneral(u), job) + LocationBonus(u, job)
    + 10 * OverlappingTags(job.tags, SelectedInterests(u)) + StreamBonus(Stream(u), job.tags)
  }

  /** The value the scorer writes onto one job, given the career map. */
  function ScoreWith(m: seq<CareerEntry>, u: User, job: Job): (s: Scored)
    ensures s.job == job
  {
    var hit := FirstMatch(m, job);
    Scored(job,
           (if hit.Some? then 100 else 0) + Bonuses(u, job),
           hit.Some?,
           if hit.Some? then Some(ChatbotScore(m[hit.value].index)) else None)
  }

  /** The value the scorer writes onto one job. */
  function Score(u: User, job: Job): (s: Scored)
    ensures s.job == job
  {
    ScoreWith(CareerMap(CareerNames(u.chatbot.topCareers)), u, job)
  }

  /** Builds the career map entry by entry, as the handler's forEach does. */
  method BuildCareerMap(careers: seq<Career>) returns (m: seq<CareerEntry>)
    ensures m == CareerMap(CareerNames(careers))
  {
    m := [];
    var i := 0;
    ghost var names := CareerNames(careers);
    while i < |careers|
      invariant 0 <= i <= |careers|
      invariant m == CareerMap(names[..i])
    {
      assert names[..i + 1][..i] == names[..i];
      m := Assign(m, Lower(careers[i].name), i);
      i := i + 1;
    }
    assert names[..i] == names;
  }

  /** The career loop of the scorer: it stops at the first matching career
      of the map and takes 100 points and that career's chatbot score. */
  method MatchCareers(m: seq<CareerEntry>, job: Job) returns (matchScore: int, recommended: bool, chatbotScore: Option<int>)
    ensures var hit := FirstMatch(m, job);
      && matchScore == (if hit.Some? then 100 else 0)
      && recommended == hit.Some?
      && chatbotScore == (if hit.Some? then Some(ChatbotScore(m[hit.value].index)) else None)
  {
    matchScore := 0;
    recommended := false;
    chatbotScore := None;
    var i := 0;
    while i < |m|
      invariant 0 <= i <= |m|
      invariant forall j :: 0 <= j < i ==> !CareerMatches(m[j].name, job)
      invariant !recommended && matchScore == 0 && chatbotScore == None
    {
      if CareerMatches(m[i].name, job) {
        recommended := true;
        chatbotScore := Some(ChatbotScore(m[i].index));
        matchScore := matchScore + 100;
        assert FirstMatch(m, job) == Some(i);
        return;
      }
      i := i + 1;
    }
  }

  method AddCategoryBonus(path: string, job: Job, before: int) returns (after: int)
    ensures after == before + CategoryBonus(path, job)
  {
    after := before;
    if Contains(path, "Degree") && job.category == DegreeBased { after := after + 30; }
    if Contains(path, "Arts") && job.category == CommunicationArts { after := after + 30; }
    if Contains(path, "Skill") && job.category == SkillBased { after := after + 30; }
    if Contains(path, "Rural") && job.isRural { after := after + 35; }
  }

  method AddLocationBonus(u: User, job: Job, before: int) returns (after: int)
    ensures after == before + LocationBonus(u, job)
  {
    after := before;
    if StateOf(u) != "" && job.state == StateOf(u) { after := after + 20; }
    if DistrictOf(u) != "" && job.district == DistrictOf(u) { after := after + 15; }
  }

  method AddStreamBonus(stream: string, tags: seq<string>, before: int) returns (after: int)
    ensures after == before + StreamBonus(stream, tags)
  {
    after := before;
    if stream == "Science" && HasAnyTag(tags, ["Tech", "Coding", "Data", "AI"]) { after := after + 15; }
    if stream == "Commerce" && HasAnyTag(tags, ["Finance", "Business", "Banking"]) { after := after + 15; }
    if stream == "Arts" && HasAnyTag(tags, ["Design", "Creative", "Writing"]) { after := after + 15; }
  }

  /** Scores one job the way the handler does: the career loop, then the
      bonuses added one group after the other. */
  method ScoreJob(m: seq<CareerEntry>, u: User, job: Job) returns (s: Scored)
    ensures s == ScoreWith(m, u, job)
  {
    var matchScore, recommended, chatbotScore := MatchCareers(m, job);
    matchScore := AddCategoryBonus(CareerPathOrGeneral(u), job, matchScore);
    matchScore := AddLocationBonus(u, job, matchScore);
    matchScore := matchScore + OverlappingTags(job.tags, SelectedInterests(u)) * 10;
    matchScore := AddStreamBonus(Stream(u), job.tags, matchScore);
    s := Scored(job, matchScore, recommended, chatbotScore);
  }

  /** The handler's `forEach` over the jobs: writes each job's score, given
      the career map, onto it in place. */
  method ScoreEach(m: seq<CareerEntry>, u: User, a: array<Scored>)
    modifies a
    ensures forall k :: 0 <= k < a.Length ==> a[k] == ScoreWith(m, u, old(a[k]).job)
  {
    var i := 0;
    while i < a.Length
      invariant 0 <= i <= a.Length
      invariant forall k :: 0 <= k < i ==> a[k] == ScoreWith(m, u, old(a[k]).job)
      invariant forall k :: i <= k < a.Length ==> a[k] == old(a[k])
    {
      a[i] := ScoreJob(m, u, a[i].job);
      i := i + 1;
    }
  }

  /** Writes the score onto every job of the list in place. */
  method ScoreJobs(u: User, a: array<Scored>)
    modifies a
    ensures forall k :: 0 <= k < a.Length ==> a[k] == Score(u, old(a[k]).job)
  {
    var m := BuildCareerMap(u.chatbot.topCareers);
    ScoreEach(m, u, a);
  }

  // ---------------------------------------------------------------- properties

  /** A job is recommended exactly when some chatbot career (by its
      lower-cased name) matches it. */
  lemma RecommendedIffSomeCareerMatches(u: User, job: Job)
    ensures Score(u, job).recommended <==>
      exists i :: 0 <= i < |u.chatbot.topCareers| && CareerMatches(Lower(u.chatbot.topCareers[i].name), job)
  {
    var cs := u.chatbot.topCareers;
    var names := CareerNames(cs);
    var m := CareerMap(names);
    CareerMapEntries(names);
    if Score(u, job).recommended {
      var k := FirstMatch(m, job).value;
      assert CareerMatches(Lower(cs[m[k].index].name), job);
    }
    if exists i :: 0 <= i < |cs| && CareerMatches(Lower(cs[i].name), job) {
      var i :| 0 <= i < |cs| && CareerMatches(Lower(cs[i].name), job);
      CareerMapCoversNames(names, i);
      var k :| 0 <= k < |m| && m[k].name == names[i];
      assert CareerMatches(m[k].name, job);
    }
  }

  /** Only the first matching career of the map counts: it gives 100 points
      and the chatbot score of its position, and no earlier entry matches. */
  lemma FirstMatchingCareerCounts(u: User, job: Job, m: seq<CareerEntry>)
    requires m == CareerMap(CareerNames(u.chatbot.topCareers))
    requires Score(u, job).recommended
    ensures exists k ::
              && 0 <= k < |m| && CareerMatches(m[k].name, job)
              && (forall j :: 0 <= j < k ==> !CareerMatches(m[j].name, job))
              && Score(u, job).chatbotScore == Some(ChatbotScore(m[k].index))
              && Score(u, job).matchScore == 100 + Bonuses(u, job)
  {
    var s := ScoreWith(m, u, job);
    assert s == Score(u, job);
    var k := FirstMatch(m, job).value;
    assert CareerMatches(m[k].name, job);
  }

  /** However many careers match, they add exactly 100 once: the score is the
      score without any chatbot careers, plus 100 when recommended. */
  lemma CareersAddAtMostOneHundred(u: User, job: Job)
    ensures var none := u.(chatbot := u.chatbot.(topCareers := []));
      Score(u, job).matchScore == Score(none, job).matchScore + (if Score(u, job).recommended then 100 else 0)
      && !Score(none, job).recommended
  {
    var none := u.(chatbot := u.chatbot.(topCareers := []));
    assert Bonuses(none, job) == Bonuses(u, job);
  }

  /** Scores are never negative; a recommended job scores at least 100 and
      carries a chatbot score in [80, 95]; others carry none. */
  lemma ScoreBounds(u: User, job: Job)
    ensures Score(u, job).matchScore >= 0
    ensures Score(u, job).recommended ==>
      Score(u, job).matchScore >= 100
      && Score(u, job).chatbotScore.Some? && 80 <= Score(u, job).chatbotScore.value <= 95
    ensures !Score(u, job).recommended ==> Score(u, job).chatbotScore.None?
  {
  }

  /** A career whose name is empty matches every job, since every title
      includes the empty string. */
  lemma EmptyCareerNameMatchesEveryJob(job: Job)
    ensures CareerMatches("", job)
  {
    ContainsEmpty(TitleText(job));
  }

  /** So a profile with such a career has every job recommended. */
  lemma EmptyCareerRecommendsEveryJob(u: User, job: Job, i: nat)
    requires i < |u.chatbot.topCareers| && u.chatbot.topCareers[i].name == ""
    ensures Score(u, job).recommended
  {
    EmptyCareerNameMatchesEveryJob(job);
    assert Lower(u.chatbot.topCareers[i].name) == "";
    RecommendedIffSomeCareerMatches(u, job);
  }

  /** A keyword of the career name found in the job text is enough. */
  lemma KeywordInTextMatches(name: string, job: Job, k: nat)
    requires k < |Keywords(name)| && Contains(JobText(job), Keywords(name)[k])
    ensures CareerMatches(name, job)
  {
  }

  /** Keywords are pieces of the name longer than two characters holding no
      separator. */
  lemma KeywordsAreSeparatorFreePieces(name: string, k: nat)
    requires k < |Keywords(name)|
    ensures |Keywords(name)[k]| > 2 && NoSeparatorIn(Keywords(name)[k])
  {
    SplitPiecesHaveNoSeparators(name);
    var pieces := SplitOnSeparators(name);
    assert Keywords(name)[k] in pieces;
  }

  /** A title inside the text: whatever a keyword finds in the title it also
      finds in the whole text, so the second test of `some` is subsumed. */
  lemma TitleIsInJobText(job: Job, p: string)
    requires Contains(TitleText(job), p)
    ensures Contains(JobText(job), p)
  {
    ContainsWithin("", TitleText(job), " " + Lower(job.company) + " " + Join(LowerAll(job.tags), " "), p);
    assert "" + TitleText(job) + (" " + Lower(job.company) + " " + Join(LowerAll(job.tags), " ")) == JobText(job);
  }
}
