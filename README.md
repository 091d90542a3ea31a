# VidyaPath career guidance: a Dafny model of its decision logic

VidyaPath guides a learner through four onboarding steps:
- academic details;
- graduation;
- interests and subject scores;
- a career chatbot that proposes top careers and a career path.

From that profile it ranks jobs, builds a roadmap per job and summarises the profile on a dashboard and in a PDF report. This project models the deterministic core of that system and proves what it promises.

The backend handlers are modelled in these modules:
- **Scoring**: the job scorer of the recommendation handler.
- **Sorting** and **Ranking**: its two-key stable sort and the positional 80–95 normaliser.
- **Reconciliation**: the greedy career→job reconciliation.
- **JobRoutes**: the recommendation and single-job handlers.
- **RoadmapRoutes**: the roadmap template generator and the title-keyed roadmap store.
- **UserRoutes**: the onboarding merge and the profile aggregators.
- **ChatbotRoutes**: question selection and conversation appends.
- **StorageChatbot**: the chat-session handlers and the rule-based responders.

The frontend logic is modelled in these modules:
- **CareerPath**: the career page's own roadmap builder and match normalisation.
- **Dashboard** and **Breakdown**: the dashboard's aggregators.
- **Onboarding**: the onboarding page's form state, payload and flatten.
- **App**: the routing guards.
- **Step1Academic**, **Step2Graduation**, **Step3Interests** and **Step4Chatbot**: the four onboarding steps.
- **CleanText** and **Report**: the PDF report's text sanitiser and content rules.

**Models** holds the Mongoose records with their enums and defaults. **Strings** holds the JavaScript string operations the code relies on, and **Wrappers** holds Option and Result.

How the model represents the program:
- Code that changes state step by step is imperative Dafny. The scorer and the reconciliation run as loops over the jobs and careers, and a `Scored` array is written in place. The stores and pages are classes whose methods update their fields. Each method is proved equal to a specification function, and the lemmas are about those functions.
- Strings are `seq<char>`, with ASCII lower-casing.
- Scores are unbounded integers. The values the code computes with JavaScript numbers are exact rationals (`real`), and `Math.round` is rounding half up.

## Model

| member | source | states |
|---|---|---|
| Models.ParseCategory | backend/models/Job.js:32-36 | a category the validator accepts is one of the five enum names, and its name is the input text |
| Models.ParseCategoryName | backend/models/Job.js:32-36 | every one of the five category names is accepted and parses back to the same category |
| Models.ParseJobType | backend/models/Job.js:18-22 | an accepted job type is one of the five enum names, and its name is the input text |
| Models.ParseJobTypeName | backend/models/Job.js:18-22 | every job-type name is accepted and parses back to the same type |
| Models.CreateJob | backend/models/Job.js:3-59 | a job is created exactly when title, company and location are non-empty and type and category are enum names. The stored record keeps every given field; the defaults are currency INR, matchScore 0 and isRural false |
| Models.ParseStepStatus | backend/models/Roadmap.js:6-10 | an absent step status defaults to Pending. A present one is accepted exactly when it is Completed, In Progress or Pending, and it is stored under that name |
| Models.NewRoadmap | backend/models/Roadmap.js:32-75 | a roadmap can be created exactly when its jobTitle is non-empty; it starts with match 0 and empty step, skill, tag and stat lists |
| Models.ProgressNotEnforced | backend/models/Roadmap.js:29 | a skill with progress 150 is accepted: the 0–100 range is documentation only |
| Models.RiskLabel | frontend/src/utils/generatePDF.js:293 | risk 0 reads Low, 2 reads High, and every other number reads Medium |
| Models.ScoreOf | backend/routes/chatbotRoutes.js:24-28 | a subject has a score exactly when an entry of the subject map carries its name |
| Models.WeakSubjects | backend/routes/userRoutes.js:142-143 | the weak subjects are exactly the subjects stored with a score below 7 |
| Strings.LowerOfLowercase | backend/routes/jobRoutes.js:69 | lower-casing text that has no capitals leaves it unchanged |
| Strings.LowerConcat | backend/routes/jobRoutes.js:69-72 | lower-casing distributes over concatenation, so the lower-cased job text is built from lower-cased parts |
| Strings.SplitPiecesHaveNoSeparators | backend/routes/jobRoutes.js:77 | no piece of the split on `[\s+&,]` contains a separator |
| Strings.SplitWithoutSeparators | backend/routes/jobRoutes.js:77 | text without separators splits into itself alone |
| Strings.JoinContainsParts | backend/routes/jobRoutes.js:71-72 | every tag joined into the job text occurs in it |
| Strings.ContainsEmpty | backend/routes/jobRoutes.js:83 | every string includes the empty string, as `String.prototype.includes` does |
| Strings.ContainsTrans | backend/routes/jobRoutes.js:79 | an occurrence inside an occurrence is an occurrence: containment is transitive |
| Strings.ContainsIsWildcardFound | backend/routes/userRoutes.js:113-116 | a literal occurrence is also a match of the regular expression in which '.' is a wildcard |
| Strings.WildcardNotFoundWhenLonger | backend/routes/userRoutes.js:113-116 | a pattern longer than the text matches nowhere in it |
| Scoring.AssignEntries | backend/routes/jobRoutes.js:53-61 | assigning a key of the career map either replaces that key's entry or appends one; every other entry keeps its name and place |
| Scoring.AssignDistinct | backend/routes/jobRoutes.js:53-61 | the career map keeps one entry per name, and the assigned name holds the assigned index |
| Scoring.CareerNames | backend/routes/jobRoutes.js:55 | one lower-cased name per chatbot career, in order |
| Scoring.CareerMapEntries | backend/routes/jobRoutes.js:53-61 | the career map has distinct names, and each entry's index points at a career with that name |
| Scoring.CareerMapCoversNames | backend/routes/jobRoutes.js:53-61 | every career name has an entry in the map |
| Scoring.CareerMapKeepsLastIndex | backend/routes/jobRoutes.js:53-61 | a repeated career name keeps the index of its last occurrence: no later career has the name |
| Scoring.Keywords | backend/routes/jobRoutes.js:77 | every keyword of a career name is longer than two characters |
| Scoring.LongPieces | backend/routes/jobRoutes.js:77 | the kept pieces are pieces of the split, each longer than two characters |
| Scoring.LowerAll | backend/routes/jobRoutes.js:71 | every tag is lower-cased in place, in order |
| Scoring.FirstMatch | backend/routes/jobRoutes.js:75-96 | the career loop stops at the first map entry that matches the job; when none matches, no entry matches |
| Scoring.ChatbotScore | backend/routes/jobRoutes.js:91-92 | the score of a career by position is always in [80, 95]: 95 − 3·index up to index 5, and 80 from there on |
| Scoring.CategoryBonus | backend/routes/jobRoutes.js:99-102 | the career-path bonuses add between 0 and 125 |
| Scoring.LocationBonus | backend/routes/jobRoutes.js:105-106 | the location bonuses add between 0 and 35 |
| Scoring.OverlappingTags | backend/routes/jobRoutes.js:109-115 | at most every tag overlaps an interest, and none does without interests |
| Scoring.StreamBonus | backend/routes/jobRoutes.js:118-121 | the stream adds 0 or 15, and 15 only for a Science, Commerce or Arts stream |
| Scoring.Bonuses | backend/routes/jobRoutes.js:99-121 | the bonuses besides the career points are never negative |
| Scoring.BuildCareerMap | backend/routes/jobRoutes.js:53-61 | the forEach builds exactly the career map of the lower-cased names |
| Scoring.MatchCareers | backend/routes/jobRoutes.js:63-96 | the career loop with `break` gives 100 points, the recommended flag and the chatbot score of the first matching entry, and nothing when none matches |
| Scoring.AddCategoryBonus | backend/routes/jobRoutes.js:99-102 | the four `+=` lines add exactly the career-path bonus |
| Scoring.AddLocationBonus | backend/routes/jobRoutes.js:105-106 | the two `+=` lines add exactly the location bonus |
| Scoring.AddStreamBonus | backend/routes/jobRoutes.js:118-121 | the three `+=` lines add exactly the stream bonus |
| Scoring.ScoreJob | backend/routes/jobRoutes.js:63-127 | scoring one job step by step gives the specified score for the job |
| Scoring.ScoreEach | backend/routes/jobRoutes.js:63-128 | every job in the array is overwritten with its score, and the job record itself is kept |
| Scoring.ScoreJobs | backend/routes/jobRoutes.js:53-128 | building the career map and then scoring each job in place writes every job's specified score |
| Scoring.RecommendedIffSomeCareerMatches | backend/routes/jobRoutes.js:74-96 | a job is chatbot-recommended exactly when some chatbot career, by keyword or by name, matches it |
| Scoring.FirstMatchingCareerCounts | backend/routes/jobRoutes.js:87-95 | a recommended job takes its chatbot score from the first matching career in map order, and its score is 100 plus the bonuses |
| Scoring.CareersAddAtMostOneHundred | backend/routes/jobRoutes.js:87-95 | however many careers match, they add exactly 100 once: without careers the score drops by 100 when the job was recommended, and by nothing otherwise |
| Scoring.ScoreBounds | backend/routes/jobRoutes.js:63-126 | scores are never negative. A recommended job scores at least 100 and has a chatbot score in [80, 95]; any other job has none |
| Scoring.EmptyCareerNameMatchesEveryJob | backend/routes/jobRoutes.js:83 | an empty career name matches every job, because every title includes the empty string |
| Scoring.EmptyCareerRecommendsEveryJob | backend/routes/jobRoutes.js:55-88 | a profile with a career whose name is empty has every job recommended |
| Scoring.KeywordInTextMatches | backend/routes/jobRoutes.js:77-80 | a keyword of the career name found in the job text is enough for a match |
| Scoring.KeywordsAreSeparatorFreePieces | backend/routes/jobRoutes.js:77 | keywords are longer than two characters and hold no separator |
| Scoring.TitleIsInJobText | backend/routes/jobRoutes.js:72-79 | whatever occurs in the lower-cased title also occurs in the full job text, so the title test adds nothing to the text test |
| Sorting.InsertPermutes | backend/routes/jobRoutes.js:131-137 | inserting an element permutes it with the list |
| Sorting.SortPermutes | backend/routes/jobRoutes.js:131-137 | the sort is a permutation of its input |
| Sorting.InsertSorted | backend/routes/jobRoutes.js:131-137 | inserting into a sorted list by a strict weak order keeps it sorted |
| Sorting.SortSorted | backend/routes/jobRoutes.js:131-137 | the sort orders its input when the comparator is a strict weak order |
| Sorting.SortOfSorted | backend/routes/jobRoutes.js:131-137 | sorting an already sorted list changes nothing |
| Sorting.InsertStable | backend/routes/jobRoutes.js:131-137 | inserting keeps the relative order of mutually unordered elements |
| Sorting.SortStable | backend/routes/jobRoutes.js:131-137 | the sort is stable: within every class of mutually unordered elements, the input order is kept |
| Sorting.SortKeepsKeysDistinct | backend/routes/jobRoutes.js:131-137 | distinct job ids stay distinct after the sort |
| Sorting.InsertKeepsKeysDistinct | backend/routes/jobRoutes.js:131-137 | inserting an element whose key is new keeps the keys distinct |
| Sorting.FilterEmptyIff | backend/routes/jobRoutes.js:140-141 | a filter yields nothing exactly when no element passes it |
| Sorting.PermutationKeepsSome | backend/routes/jobRoutes.js:131-140 | whether some job passes a test does not depend on the order of the list |
| Sorting.FilterKeepsAll | backend/routes/jobRoutes.js:140-141 | a filter that every element passes keeps the list unchanged |
| Ranking.PrecedesIsStrictWeakOrder | backend/routes/jobRoutes.js:131-137 | the comparator (recommended first, then higher score) is a strict weak order, so the sort is well defined |
| Ranking.RankedIsStableSort | backend/routes/jobRoutes.js:131-137 | the ranking permutes the scored jobs. Recommended jobs come first, each group is by non-increasing score, and jobs that tie keep their input order |
| Ranking.SplitOfSortedIsIdentity | backend/routes/jobRoutes.js:139-144 | on a sorted list, the recommended jobs followed by the others are the list itself |
| Ranking.RecsThenOthersIsRanked | backend/routes/jobRoutes.js:139-144 | `[...chatbotRecommendedJobs, ...otherJobs]` is exactly the ranking |
| Ranking.NoRecsIffNoneRecommended | backend/routes/jobRoutes.js:140-148 | the recommended list is empty exactly when no job scores as recommended |
| Ranking.Clamp | backend/routes/jobRoutes.js:256 | `Math.max(lo, Math.min(hi, x))` lands in [lo, hi] and leaves values inside it unchanged |
| Ranking.Round | backend/routes/jobRoutes.js:248 | `Math.round(num / den)` is the nearest integer, halves rounded up |
| Ranking.MinOf | backend/routes/jobRoutes.js:244 | `Math.min(...scores)` is a score and at most every score |
| Ranking.MaxOf | backend/routes/jobRoutes.js:245 | `Math.max(...scores)` is a score and at least every score |
| Ranking.Positional | backend/routes/jobRoutes.js:223-256 | every positional match is in [80, 95], and positions 0–4 get 95, 92, 89, 86 and 83 |
| Ranking.RoundOfShare | backend/routes/jobRoutes.js:246-248 | the rounded normalised position of a job past the top five is 0, 1 or 2: 0 at the minimum score and 2 at the maximum |
| Ranking.PositionalTail | backend/routes/jobRoutes.js:235-252 | from position 5 on the match is in [80, 82]. A recommended job shows its chatbot score − 1 clamped there. Any other job shows 80 at the minimum of all scores past position 5 and 82 at their maximum |
| Ranking.SalaryText | backend/routes/jobRoutes.js:267 | a job's salary range is shown as stored when present; otherwise the text is built from the bounds and ends in 'L' |
| Ranking.Listing | backend/routes/jobRoutes.js:223-280 | the response has min(20, n) entries that keep the ranked jobs and flags in order. Every match is in [80, 95], and the first five are 95, 92, 89, 86, 83 |
| Reconciliation.KeywordPoints | backend/routes/jobRoutes.js:173-180 | a keyword earns 0, 10, 15 or 25 relevance points |
| Reconciliation.KeywordRelevance | backend/routes/jobRoutes.js:173-180 | n keywords earn at most 25·n points |
| Reconciliation.HintRelevance | backend/routes/jobRoutes.js:183-188 | the fixed hints add at most 115 points |
| Reconciliation.Relevance | backend/routes/jobRoutes.js:172-188 | a job's relevance to a career is bounded by 25 per keyword plus 115 |
| Reconciliation.KeywordRelevancePositive | backend/routes/jobRoutes.js:173-180 | the keywords earn points exactly when one of them occurs in the job's title-and-tags text |
| Reconciliation.RelevancePositiveIff | backend/routes/jobRoutes.js:172-188 | a job is relevant to a career exactly when a keyword occurs in its title-and-tags text or a fixed hint applies |
| Reconciliation.RelevanceOf | backend/routes/jobRoutes.js:172-188 | computing the relevance keyword by keyword, then the hints, gives the specified relevance |
| Reconciliation.KeywordRelevanceOf | backend/routes/jobRoutes.js:173-180 | the keyword forEach sums exactly the keyword points |
| Reconciliation.HintRelevanceOf | backend/routes/jobRoutes.js:183-188 | the six `if` lines add exactly the hint points |
| Reconciliation.BestAmong | backend/routes/jobRoutes.js:159-194 | a chosen job is unclaimed, scanned and strictly positive; with no choice the best score stays 0 |
| Reconciliation.BestAmongIsFirstMaximum | backend/routes/jobRoutes.js:190-193 | the scan's best score is at least every unclaimed job's relevance, and every earlier unclaimed job scores strictly less |
| Reconciliation.BestIsFirstMaximum | backend/routes/jobRoutes.js:159-194 | a career's best job is the first unclaimed other job of strictly highest positive relevance, and there is none when no unclaimed job is relevant |
| Reconciliation.ConsiderJob | backend/routes/jobRoutes.js:162-194 | the inner callback for one job advances the scan by exactly that job, skipping claimed ids |
| Reconciliation.BestJob | backend/routes/jobRoutes.js:159-194 | the inner forEach finds the specified best job of a career |
| Reconciliation.ClaimNext | backend/routes/jobRoutes.js:196-206 | a career claims at most one job. The claimed job is an unclaimed other job, is marked recommended with the career's positional chatbot score, and its id joins the claimed set |
| Reconciliation.ClaimCareer | backend/routes/jobRoutes.js:154-207 | the outer callback for career c advances the claims by exactly that career |
| Reconciliation.Reconcile | backend/routes/jobRoutes.js:151-207 | running every career in order gives the specified claims and claimed set |
| Reconciliation.ClaimsComeFromOthers | backend/routes/jobRoutes.js:196-206 | after c careers there are at most c claims. Each is an other job, now recommended, with the score of the career that claimed it, and its id is claimed |
| Reconciliation.ClaimedIdsAreListed | backend/routes/jobRoutes.js:197-199 | every claimed id belongs to a claimed job |
| Reconciliation.ClaimsAreDistinct | backend/routes/jobRoutes.js:164-199 | no job is claimed twice |
| Reconciliation.ClaimScoresAtLeast | backend/routes/jobRoutes.js:203 | every job claimed by the first c careers scores at least the score of position c |
| Reconciliation.ClaimsAreDescending | backend/routes/jobRoutes.js:203-217 | the claimed list never increases in chatbot score |
| Reconciliation.ChatbotScoreNonIncreasing | backend/routes/jobRoutes.js:203 | a later career never gets a higher positional score |
| Reconciliation.ResortIsIdentity | backend/routes/jobRoutes.js:217 | the re-sort by chatbot score leaves the claimed list as it is |
| JobRoutes.Recommendations | backend/routes/jobRoutes.js:11-292 | an unknown user gets 404, and a response holds min(20, n) jobs (as written, with the const reassignment) |
| JobRoutes.ServerErrorIffCareersButNoMatch | backend/routes/jobRoutes.js:141-291 | as written, a known user gets a 500 exactly when they have chatbot careers and no job scores as recommended; otherwise the response is the listing of the ranking |
| JobRoutes.RecommendationsHandler | backend/routes/jobRoutes.js:11-292 | the handler (score in place, sort, split, list) returns the specified response |
| JobRoutes.ScoreList | backend/routes/jobRoutes.js:63-128 | the handlers' map over the jobs yields every job's score, in order |
| JobRoutes.RecommendationsIntended | backend/routes/jobRoutes.js:148-219 | with the reassignment working, only an unknown user fails, and the response holds at most 20 jobs |
| JobRoutes.IntendedAgreesOffReconciliation | backend/routes/jobRoutes.js:139-148 | off the reconciliation branch the intended response is the written one |
| JobRoutes.Unclaimed | backend/routes/jobRoutes.js:209-214 | the filtered other jobs are other jobs whose ids were not claimed |
| JobRoutes.ListingOfClaimsThenRest | backend/routes/jobRoutes.js:217-280 | the claimed jobs head the listing in claiming order, and the rest follow in order |
| JobRoutes.ListingOfClaimsThenUnclaimed | backend/routes/jobRoutes.js:209-218 | claimed jobs listed ahead of the unclaimed other jobs: the claims head the list, and the tail holds only jobs whose ids were not claimed |
| JobRoutes.IntendedListsClaimsThenUnclaimed | backend/routes/jobRoutes.js:148-219 | on the reconciliation branch the intended response succeeds. It lists the claimed jobs, marked recommended, ahead of the unclaimed ones, which are not |
| JobRoutes.IntendedOnReconciliation | backend/routes/jobRoutes.js:151-218 | the intended response on that branch is the listing of the claims followed by the unclaimed other jobs |
| JobRoutes.FindById | backend/routes/jobRoutes.js:439-442 | `findIndex` finds the first entry with the given non-empty id, and none when no entry has it |
| JobRoutes.FallbackCareersCountEveryMatch | backend/routes/jobRoutes.js:490-506 | without `break`, the fallback adds 100 for every matching career |
| JobRoutes.FallbackCareersRecommendIffMatch | backend/routes/jobRoutes.js:490-506 | the fallback is recommended exactly when some career matches, and it has a chatbot score exactly then |
| JobRoutes.FallbackCareersKeepLastMatch | backend/routes/jobRoutes.js:501-503 | the fallback's chatbot score is that of the last matching career |
| JobRoutes.FallbackCareersChatbotScoreInRange | backend/routes/jobRoutes.js:503 | a recommended fallback has a chatbot score, and it is in [80, 95] |
| JobRoutes.FallbackCareerLoop | backend/routes/jobRoutes.js:490-506 | the fallback's forEach over the careers computes the specified fallback |
| JobRoutes.FallbackScoring | backend/routes/jobRoutes.js:481-527 | the fallback computed step by step is the specified one |
| JobRoutes.FallbackVersusScore | backend/routes/jobRoutes.js:490-506 | checked against the scorer at lines 75-96: the fallback and the list's scorer agree on being recommended. The fallback's score is the list score plus 100 for every matching career after the first |
| JobRoutes.FallbackCareersOverAll | backend/routes/jobRoutes.js:490-506 | over all careers, the fallback scores 100 per matching career and is recommended exactly when some career matches |
| JobRoutes.FallbackMatch | backend/routes/jobRoutes.js:529-534 | a non-recommended fallback with a positive score shows a match in [80, 95]; with none it shows 85 |
| JobRoutes.PositionOf | backend/routes/jobRoutes.js:434-442 | a found position lies inside the list of all jobs |
| JobRoutes.JobDetail | backend/routes/jobRoutes.js:317-549 | the single-job view gives 404 exactly for an unknown job, and the plain job without an e-mail or a known user |
| JobRoutes.DetailMatchInRange | backend/routes/jobRoutes.js:446-468 | a priced single-job view always shows a match in [80, 95] |
| JobRoutes.DetailAgreesWithListing | backend/routes/jobRoutes.js:434-475 | with the listing of lines 330-331: with distinct ids, the single-job view of a listed job shows the list's match and flag, so the list and the view agree off the reconciliation branch |
| JobRoutes.RankedIdsDistinct | backend/routes/jobRoutes.js:428-436 | distinct job ids stay distinct in the ranking |
| JobRoutes.FindByDistinctId | backend/routes/jobRoutes.js:439-442 | with distinct ids, looking up the id of entry i finds i |
| RoadmapRoutes.TemplateDispatch | backend/routes/roadmapRoutes.js:314-457 | the generator picks the degree template exactly for Degree-Based jobs and the skill template exactly for Skill-Based ones. Communication & Arts and Urban get the default. A rural job gets the first tag group that matches, and the generic rural plan exactly when none does |
| RoadmapRoutes.RuralDispatch | backend/routes/roadmapRoutes.js:314-405 | rural tag groups are tried case-sensitively in order. The first that some tag matches picks the template; the generic plan is used exactly when none matches |
| RoadmapRoutes.StepsNumberedAndPending | backend/routes/roadmapRoutes.js:316-456 | every generated step is Pending and numbered 1..n without gaps, with n = 5 for the degree template and 4 otherwise. The generic-rural, degree, skill and default templates end with a step whose subtitle is the job title |
| RoadmapRoutes.JobSkills | backend/routes/roadmapRoutes.js:379-386 | a template's skills are the first min(3, n) job skills, each with index-based progress and level |
| RoadmapRoutes.SkillFallbackIsTemplateSkills | backend/routes/roadmapRoutes.js:471-479 | the fallback skill list is never used: every template yields the skills it builds |
| RoadmapRoutes.RoadmapSkillsShape | backend/routes/roadmapRoutes.js:316-479 | fixed-skill templates give three Essential skills. The others give the first min(3, n) job skills, with progress in [30, 80] and levels Advanced, Intermediate, Essential for the degree template |
| RoadmapRoutes.SalaryStatText | backend/routes/roadmapRoutes.js:465 | the salary stat is the stored range when present, else a text starting with the rupee sign |
| RoadmapRoutes.TagChips | backend/routes/roadmapRoutes.js:462 | one tag chip per job tag, in order, labelled with the tag |
| RoadmapRoutes.DefaultStats | backend/routes/roadmapRoutes.js:464-469 | exactly four stats labelled AVG SALARY, LOCATION, TYPE and CATEGORY, showing the job's location and category name |
| RoadmapRoutes.DefaultRoadmapFields | backend/routes/roadmapRoutes.js:297-483 | the generated roadmap is titled and linked to the job. Its match is `job.matchScore \|\| 85`, its tags are the job's, it has four stats, and its steps and skills are the template's. Only the teaching template replaces the default course |
| RoadmapRoutes.FallbackMatch | backend/routes/roadmapRoutes.js:214-219 | the fallback yields no score exactly when it is not recommended and scores nothing. A recommended job shows its chatbot score; otherwise the score is kept in [80, 95] |
| RoadmapRoutes.RoadmapScoreAgreesWithDetail | backend/routes/roadmapRoutes.js:19-221 | whenever the roadmap view computes a match, the single-job view shows the same match, in [80, 95] |
| RoadmapRoutes.NoRoadmapScoreIsDetailDefault | backend/routes/roadmapRoutes.js:214-219 | when the roadmap view computes no match for a known user, the single-job view shows 85 and not recommended |
| RoadmapRoutes.ComputeRoadmapScore | backend/routes/roadmapRoutes.js:19-221 | the view's score, computed by scoring, sorting and locating the job, is the specified one |
| RoadmapRoutes.WithScore | backend/routes/roadmapRoutes.js:235-238 | a computed score overwrites the match and nothing else; with no score the roadmap is returned as stored |
| RoadmapRoutes.Patched | backend/routes/roadmapRoutes.js:272-278 | `Object.assign` keeps the title, and an empty body changes nothing |
| RoadmapRoutes.PatchIdempotent | backend/routes/roadmapRoutes.js:278 | applying the same update twice is applying it once |
| RoadmapRoutes.RoadmapStore.constructor | backend/models/Roadmap.js:33-37 | the store starts empty, with one roadmap per title |
| RoadmapRoutes.RoadmapStore.ViewForJob | backend/routes/roadmapRoutes.js:12-245 | an unknown job gives 404. An existing roadmap for the title is reused unchanged; one is created and stored only when absent. A computed score overwrites the match in the response only. The returned roadmap carries the job's title |
| RoadmapRoutes.RoadmapStore.Upsert | backend/routes/roadmapRoutes.js:270-294 | an existing roadmap is updated in place with the body's fields; otherwise one is created. Either way exactly one roadmap per title remains, and the returned one carries the requested title. A missing or empty title answers 500 and changes nothing: the query for a missing title matches no stored roadmap, and the title is required |
| CareerPath.RoundHalfUp | frontend/src/pages/CareerPath.jsx:139 | `Math.round` gives the integer within half of x, halves rounded up |
| CareerPath.OrElse | frontend/src/pages/CareerPath.jsx:131 | `a \|\| b` on numbers is a unless a is 0 |
| CareerPath.Normalise | frontend/src/pages/CareerPath.jsx:131-139 | the normalised match is an integer in [80, 95]. Values inside are only rounded, falsy or non-positive ones give 88, and values of 100 or more give 95 |
| CareerPath.NormaliseKeepsWholeInRange | frontend/src/pages/CareerPath.jsx:132-139 | a whole number already in [80, 95] is shown unchanged |
| CareerPath.NormaliseIdempotent | frontend/src/pages/CareerPath.jsx:131-139 | normalising a normalised value changes nothing |
| CareerPath.NormaliseNotMonotone | frontend/src/pages/CareerPath.jsx:132-134 | the rescaling is not monotone: 79 shows 92 while 80 shows 80 |
| CareerPath.JsonOf | backend/routes/jobRoutes.js:470-475 | a priced job arrives with its computed match in both fields; a plain job keeps its stored matchScore and has no match |
| CareerPath.PageDispatchSkipsAgriculture | frontend/src/pages/CareerPath.jsx:69-105 | the page's rural dispatch has no agriculture group and otherwise agrees with the backend generator. An agriculture job falls through to the technical or the generic rural plan |
| CareerPath.PageSalaryText | frontend/src/pages/CareerPath.jsx:147 | the salary stat is the stored range when present |
| CareerPath.PageStats | frontend/src/pages/CareerPath.jsx:146-151 | the page's roadmap has four stats |
| CareerPath.PageDefaultRoadmapShape | frontend/src/pages/CareerPath.jsx:141-172 | the built roadmap holds only the "Get Started" step and the first min(3, n) job skills, Essential with progress 30 + 20i. Its match is a whole number in [80, 95], it has the default course, and it has the backend's stats except the salary fallback |
| CareerPath.PageDefaultSteps | frontend/src/pages/CareerPath.jsx:67-128 | the one step kept is the default template's first, although a template of at least four steps was computed for the job |
| CareerPath.PageDefaultStats | frontend/src/pages/CareerPath.jsx:146-151 | the page's stats equal the backend generator's when a salary range is stored, and differ at most in the salary otherwise |
| CareerPath.FallbackRoadmap | frontend/src/pages/CareerPath.jsx:43-49 | when the roadmap request is refused, a truthy job matchScore overwrites the built roadmap's match; otherwise the match is the normalised job match |
| CareerPath.FallbackRoadmapCanLeaveRange | frontend/src/pages/CareerPath.jsx:44-48 | the overwrite can take the stored match out of [80, 95]: a job scored 150 keeps 150 |
| CareerPath.CareerPathPage.constructor | frontend/src/pages/CareerPath.jsx:12-14 | the page starts without job or roadmap data, loading |
| CareerPath.CareerPathPage.FetchJobData | frontend/src/pages/CareerPath.jsx:16-63 | the fetch effect always ends loading. An OK job response stores the job; the roadmap is then the OK body, or the page's fallback on a refusal, or unchanged after a thrown error. Without an id or an OK job nothing changes |
| CareerPath.CareerPathPage.Current | frontend/src/pages/CareerPath.jsx:471-529 | the page shows the loading screen exactly while loading |
| CareerPath.MockKey | frontend/src/pages/CareerPath.jsx:527-529 | the mock entry is the one for the id when it exists, else entry '1' |
| CareerPath.View | frontend/src/pages/CareerPath.jsx:483-525 | the live view shows the job's title and a match in [80, 95] |
| CareerPath.Display | frontend/src/pages/CareerPath.jsx:471-529 | live data is shown exactly when both the job and a roadmap are present, with a match in [80, 95]; otherwise a mock entry is shown as stored |
| CareerPath.MockIsNotNormalised | frontend/src/pages/CareerPath.jsx:402-410 | with the lookup of lines 527-529: without live data, id '9' shows 75, outside [80, 95], and an unknown id shows entry '1' |
| CareerPath.RefusedRoadmapShowsJobScore | frontend/src/pages/CareerPath.jsx:43-49 | with the view of lines 485-496: when the roadmap request is refused, the page shows the normalised job match and the single "Get Started" step |
| CareerPath.FreshPageAfterFetch | frontend/src/pages/CareerPath.jsx:16-63 | with the view of lines 483-529: after the fetch effect, the page shows live data exactly when the job request was OK and the roadmap request did not throw; after a refusal it shows the normalised job match |
| UserRoutes.Truthy | backend/routes/userRoutes.js:22-24 | a stored text is overwritten only by a truthy (non-empty) given one |
| UserRoutes.MergeChatbot | backend/routes/userRoutes.js:20-39 | careerPath, summary and sessionId are overwritten only when truthy, and insights and topCareers only when given as lists. The stored history is kept as a prefix, with the new conversations appended in order |
| UserRoutes.Merge | backend/routes/userRoutes.js:14-41 | an update keeps the e-mail. Each section is replaced exactly when present in the request and otherwise unchanged, and the clerkId is overwritten only when truthy |
| UserRoutes.NewUser | backend/routes/userRoutes.js:46-56 | a new profile holds the request's e-mail, clerkId and sections as sent, with chatbotData defaulting to `{}` |
| UserRoutes.Onboard | backend/routes/userRoutes.js:8-63 | a save stores the profile under the request's e-mail. It answers 201 exactly for an unknown e-mail, with the new profile, and 200 exactly for a known one, with the merge. A missing e-mail matches no profile and fails with 500. A failed save changes nothing |
| UserRoutes.OnboardKeepsStoreValid | backend/models/User.js:4-14 | saving keeps one profile per e-mail, each under its own e-mail, and the sparse clerkId index unique |
| UserRoutes.OnboardTouchesOneProfile | backend/routes/userRoutes.js:12-58 | a save touches only the profile under the request's e-mail and never removes one |
| UserRoutes.ConversationsAccumulate | backend/routes/userRoutes.js:34-39 | saving the same conversations twice appends them twice: the history only grows |
| UserRoutes.MergeIdempotentWithoutConversations | backend/routes/userRoutes.js:14-41 | without conversations, saving the same request twice is saving it once |
| UserRoutes.MergeFields | backend/routes/userRoutes.js:16-41 | the field-by-field update of the found profile is the specified merge |
| UserRoutes.MergeChatbotFields | backend/routes/userRoutes.js:20-39 | the field-by-field chatbot update is the specified chatbot merge |
| UserRoutes.UserStore.constructor | backend/models/User.js:4-14 | the store starts empty and valid |
| UserRoutes.UserStore.Onboarding | backend/routes/userRoutes.js:8-63 | the handler, updating the store in place, gives the specified reply and new store, and keeps the store valid |
| UserRoutes.Profile | backend/routes/userRoutes.js:68-79 | a profile is returned exactly when its e-mail is stored; otherwise 404 |
| UserRoutes.ProfileDashboard | backend/routes/userRoutes.js:84-101 | a stored profile gets its interest breakdown, its skill gaps and an empty top-match list; otherwise 404 |
| UserRoutes.Positive | backend/routes/userRoutes.js:132-134 | at most four areas are kept, all with positive points and none Rural; none is kept exactly when every area scored 0 |
| UserRoutes.ProfileTallyHasNoRural | backend/routes/userRoutes.js:105 | the backend's tally never scores Rural |
| UserRoutes.ProfileTopAreasOfPositiveTotal | backend/routes/userRoutes.js:132-136 | with points, one to three positive areas are kept in non-increasing order, and no area left out scores above one kept |
| UserRoutes.ProfileSharesOfPositiveTotal | backend/routes/userRoutes.js:127-137 | with points, the breakdown shows the top areas in order, each with its rounded percentage of the total |
| UserRoutes.ProfileSharesMayMissHundred | backend/routes/userRoutes.js:132-137 | without a correction the shares need not sum to 100: three equal areas show 33 each, summing to 99 |
| UserRoutes.ThreeEqualAreas | backend/routes/userRoutes.js:132-137 | three areas at 15 points show Technology, Creative and Business at 33 each |
| UserRoutes.BbaCountsAsArts | backend/routes/userRoutes.js:113-116 | since '.' in /B.A\|Arts/ matches any character, a BBA degree adds to Business and also to Creative and Social |
| UserRoutes.LowerCaseInterestAddsNothing | backend/routes/userRoutes.js:120-125 | interests match case-sensitively: one written with a small first letter adds nothing |
| UserRoutes.CapitalisedInterestCounts | backend/routes/userRoutes.js:121 | a listed interest adds 15 to its area |
| UserRoutes.CalculateInterestStats | backend/routes/userRoutes.js:104-138 | building the tally with `+=` and then filtering, sorting, cutting and rounding gives the specified breakdown |
| UserRoutes.ProfileSkillGaps | backend/routes/userRoutes.js:141-153 | with the subject likes read as intended (see Findings): each subject scored below 7 becomes a gap from 60 to 90, in order; without one, the three fixed defaults are used |
| UserRoutes.GapsAsWrittenAreAlwaysDefault | backend/routes/userRoutes.js:142-144 | as written, `Object.entries` of the Mongoose `Map` lists nothing, so every profile gets the three defaults; a profile with a weak subject therefore gets other gaps than intended |
| UserRoutes.GapsNameSkillsToImprove | backend/routes/userRoutes.js:141-153 | when some subject is weak, the backend's gaps name exactly the subjects the dashboard lists to improve |
| ChatbotRoutes.TagSet | backend/routes/chatbotRoutes.js:21-48 | with the subject likes read as intended (see Findings), the rules are tried in order and the first that applies wins. A learner who has not completed 12th, with Math below 5 (missing counts as 0), gets the foundation tags. Otherwise Science with Math above 7 and a Coding interest gets the technical tags, and otherwise Arts or an Art & Design interest gets the creative tags. Anyone else, and an unknown asker, gets none |
| ChatbotRoutes.MathAsWrittenIsAlwaysZero | backend/routes/chatbotRoutes.js:23-35 | as written, `subjectScores.Math` on the Mongoose `Map` is undefined, so Math counts as 0: the foundation tags go exactly to learners before 12th, and the technical tags go to no one. With Math read as intended, a Science learner past 12th who likes Coding and scores Math above 7 gets the technical tags |
| Models.SubjectLikesUnread | backend/models/User.js:42 | the profile as a backend property read sees it: no subject likes, everything else unchanged |
| ChatbotRoutes.FoundationOnlyBefore12 | backend/routes/chatbotRoutes.js:28 | a learner past 12th never gets the foundation tags |
| ChatbotRoutes.StrongCoderBefore12GetsFoundation | backend/routes/chatbotRoutes.js:28-40 | a Science coder who has not completed 12th and has no Math score gets the foundation tags, not the technical ones |
| ChatbotRoutes.WithTags | backend/routes/chatbotRoutes.js:29-32 | the selection holds exactly the bank's active questions carrying one of the tags |
| ChatbotRoutes.GeneralQuestions | backend/routes/chatbotRoutes.js:52-55 | the selection holds exactly the bank's active general questions |
| ChatbotRoutes.FirstFive | backend/routes/chatbotRoutes.js:32 | `limit(5)` keeps a prefix of at most five |
| ChatbotRoutes.Questions | backend/routes/chatbotRoutes.js:21-56 | at most five active questions of the bank: the first five with the profile's tags, or the first five general ones when there are no tags or no tagged question |
| ChatbotRoutes.ChosenQuestionsFitTheProfile | backend/routes/chatbotRoutes.js:21-56 | every chosen question carries one of the profile's tags or is general, and a general one only when no question carries a tag |
| ChatbotRoutes.Appended | backend/routes/chatbotRoutes.js:82-90 | the pair is appended after the stored history, and nothing else in the profile changes |
| ChatbotRoutes.SaveConversation | backend/routes/chatbotRoutes.js:68-99 | a missing e-mail, question or answer gives 400 and an unknown e-mail 404, both with nothing stored. Otherwise the pair is appended to that profile only |
| ChatbotRoutes.AnswerQuestion | backend/routes/chatbotRoutes.js:104-166 | the reply is the bank's answer when one matched, with source database, else one of the five generic replies. The pair is appended exactly when the e-mail names a profile |
| ChatbotRoutes.AppendKeepsStoreValid | backend/models/User.js:4-14 | appending to a history keeps one profile per e-mail and the clerkId index |
| ChatbotRoutes.SavingTwiceStoresTwice | backend/routes/chatbotRoutes.js:86-90 | two saves of the same pair store it twice: the history only grows |
| ChatbotRoutes.SaveConversationIn | backend/routes/chatbotRoutes.js:68-99 | the handler, pushing onto the stored profile, gives the specified reply and store |
| ChatbotRoutes.AnswerQuestionIn | backend/routes/chatbotRoutes.js:104-166 | the handler gives the specified reply, source and store |
| StorageChatbot.Find | backend/routes/storageChatbotRoutes.js:16-122 | `findOne` finds the first session the filter matches, and none exactly when none matches |
| StorageChatbot.FindByClerkId | backend/routes/storageChatbotRoutes.js:25 | a profile is found by clerkId exactly when a stored profile has that non-empty clerkId |
| StorageChatbot.FindByEmail | backend/routes/storageChatbotRoutes.js:23 | a profile is found by e-mail exactly when it is stored |
| StorageChatbot.Either | backend/routes/storageChatbotRoutes.js:25 | `a \|\| b` finds a profile when either lookup does |
| StorageChatbot.StartUser | backend/routes/storageChatbotRoutes.js:13-26 | an id with '@' is looked up as an e-mail; any profile found is a stored one |
| StorageChatbot.Greet | backend/routes/storageChatbotRoutes.js:55-72 | the welcome names the first top career (or "career guidance" when its name is empty). Without careers it names the first two interests; without either, or without a profile, it is the default greeting |
| StorageChatbot.WelcomeText | backend/routes/storageChatbotRoutes.js:68-70 | the welcome text names the career, or every interest, it was built from |
| StorageChatbot.NewProfile | backend/routes/storageChatbotRoutes.js:34-42 | a new session's profile has no name, level 12th exactly when the profile completed 12th, and the profile's district or "Unknown" |
| StorageChatbot.NewSession | backend/routes/storageChatbotRoutes.js:17-44 | a new session gets a "storage_" id, the user id and no messages |
| StorageChatbot.Start | backend/routes/storageChatbotRoutes.js:10-90 | a started session exists for the user and its id is returned with the greeting. A session is added only when the user has none, and only at the end |
| StorageChatbot.StartReusesSession | backend/routes/storageChatbotRoutes.js:16-19 | starting again for a user resumes their session: the same id, and no new session |
| StorageChatbot.StartKeepsSessionsValid | backend/routes/storageChatbotRoutes.js:16-45 | starting keeps session ids unique and adds at most one session, at the end |
| StorageChatbot.StartTwiceSameSession | backend/routes/storageChatbotRoutes.js:16-45 | two starts for the same user give the same reply and the same sessions, whatever ids are drawn |
| StorageChatbot.Identifier | backend/routes/storageChatbotRoutes.js:107 | the identifier is absent exactly when neither user id nor e-mail is given but a session id is |
| StorageChatbot.AnswerSession | backend/routes/storageChatbotRoutes.js:110-123 | a found session is one of the stored sessions |
| StorageChatbot.Counted | backend/routes/storageChatbotRoutes.js:146-150 | the found session counts one more message, and every other session is unchanged |
| StorageChatbot.Submit | backend/routes/storageChatbotRoutes.js:95-171 | an empty answer gives 400, and a failure changes nothing. An accepted answer is replied to by the personalised responder, and the sessions change at most by counting the found one |
| StorageChatbot.SubmitCountsOneMessage | backend/routes/storageChatbotRoutes.js:136-150 | an accepted answer for a found session adds exactly one message to it and logs exactly one answer; nothing else changes |
| StorageChatbot.UnmatchedAnswerIsNotLogged | backend/routes/storageChatbotRoutes.js:136 | an answer with no session id that finds no session is answered but neither logged nor counted |
| StorageChatbot.StaleSessionWithoutIdentityFails | backend/routes/storageChatbotRoutes.js:136-143 | a session id that matches nothing, sent without a user id or e-mail, leaves the log entry without a user, and the request ends in 500 |
| StorageChatbot.SubmitKeepsSessionsValid | backend/routes/storageChatbotRoutes.js:95-171 | answers never add or remove sessions, and keep their ids unique |
| StorageChatbot.ChatStorage.constructor | backend/routes/storageChatbotRoutes.js:16 | the store starts without sessions or answers |
| StorageChatbot.ChatStorage.StartSession | backend/routes/storageChatbotRoutes.js:10-90 | the start handler, updating the store in place, gives the specified reply and sessions and logs nothing |
| StorageChatbot.ChatStorage.SubmitAnswer | backend/routes/storageChatbotRoutes.js:95-171 | the answer handler gives the specified reply, sessions and log |
| StorageChatbot.General | backend/routes/storageChatbotRoutes.js:237-256 | the general responder tries salary, then future/next/step (naming the first top career exactly when there is one), then help, then the default |
| StorageChatbot.Personalized | backend/routes/storageChatbotRoutes.js:174-235 | without a profile the general responder answers. Otherwise the topics career, skills, location, interest and education are tried in order on the lower-cased question; a topic answers only when its data exists, and else the general responder answers with the profile's careers |
| StorageChatbot.CareerPickText | backend/routes/storageChatbotRoutes.js:199 | the career reply names the career and, when there is one, the first insight |
| StorageChatbot.NextStepsText | backend/routes/storageChatbotRoutes.js:245 | the next-steps reply names the career |
| StorageChatbot.CareerQuestionNamesTopCareer | backend/routes/storageChatbotRoutes.js:196-199 | a career question from a profile with top careers is answered naming the first one, and its first insight when there is one |
| StorageChatbot.CapitalisationDoesNotMatter | backend/routes/storageChatbotRoutes.js:175 | the responder ignores the question's capitalisation |
| App.Or | frontend/src/App.jsx:45-54 | JavaScript `\|\|` yields a truthy value exactly when one of its operands is truthy |
| App.CompletionTruthyIff | frontend/src/App.jsx:45-54 | the completion expression is truthy exactly when the profile has a 10th board or 12th stream, some interests, strengths or subject likes, a chatbot career path, a state or district, or a graduation field |
| App.CompletionIsTrueOnlyThroughInterests | frontend/src/App.jsx:45-54 | the completion expression evaluates to the boolean `true` exactly when the academic operand is falsy and the interests operand is `true`; every other completed profile yields a string |
| App.GuardData | frontend/src/App.jsx:21-71 | the route guard's effect leaves `hasData` alone before sign-in, sets it to `true` when no data check is asked or no e-mail is known, to `false` on a retake or a failed fetch, and otherwise to the completion expression of the fetched profile |
| App.ProtectedRoute.constructor | frontend/src/App.jsx:15-18 | a new guard starts with `hasData` null and loading |
| App.ProtectedRoute.CheckUserData | frontend/src/App.jsx:21-75 | running the effect sets `hasData` as the guard's data function says and ends loading |
| App.GuardStartsLoading | frontend/src/App.jsx:17-18 | with the check of lines 88-90: before the effect has run the guard shows the loading screen |
| App.RetakeRendersChildren | frontend/src/App.jsx:30-96 | a signed-in user asking to retake the survey is shown the onboarding page |
| App.FetchErrorRendersChildren | frontend/src/App.jsx:63-96 | when the profile cannot be fetched the guarded page is shown |
| App.NoEmailRedirectsToDashboard | frontend/src/App.jsx:28-86 | a data-checking guard with no known e-mail treats the user as having data and redirects to the dashboard unless a retake is asked |
| App.UncheckedGuardChecksSignInOnly | frontend/src/App.jsx:68-96 | a guard that does not check data shows the page to a signed-in user and sends anyone else to the login page |
| App.GuardRedirectsOnlyOnTrue | frontend/src/App.jsx:78-86 | with a fetched profile the guard redirects to the dashboard exactly when the academic operand is falsy and the interests operand is `true` |
| App.GuardMissesBoardOnlyProfile | frontend/src/App.jsx:78 | a profile with only a 10th board counts as onboarded yet the guard shows it the onboarding page again |
| App.GuardIntendedRedirectsOnboarded | frontend/src/App.jsx:78 | with a truthiness test in place of `=== true` the guard redirects to the dashboard exactly the onboarded profiles |
| App.RootData | frontend/src/App.jsx:105-148 | for a signed-in user with an e-mail `hasData` becomes truthy exactly when a profile was fetched and it is onboarded; otherwise it is left as it was |
| App.RootRedirect.constructor | frontend/src/App.jsx:100-103 | the root redirect starts with `hasData` null and loading |
| App.RootRedirect.CheckUserData | frontend/src/App.jsx:105-151 | running the effect sets `hasData` as the root's data function says and ends loading |
| App.RootRedirectDecides | frontend/src/App.jsx:153-162 | once loaded the root sends signed-out users to login and signed-in users to the dashboard exactly when their fetched profile is onboarded, and to onboarding otherwise |
| Onboarding.InitialForm | frontend/src/pages/Onboarding.jsx:20-52 | the page starts with the signed-in user's e-mail and id, 12th taken as completed and every list and map empty |
| Onboarding.ApplyNoChange | frontend/src/pages/Onboarding.jsx:54-56 | an update with no keys leaves the form as it is |
| Onboarding.ApplyIdempotent | frontend/src/pages/Onboarding.jsx:54-56 | repeating an update changes nothing further |
| Onboarding.ApplyThen | frontend/src/pages/Onboarding.jsx:54-56 | two updates in a row are one update in which the later keys win |
| Onboarding.ApplyWhole | frontend/src/pages/Onboarding.jsx:54-56 | an update carrying every key replaces the whole form |
| Onboarding.SetTextChangesOneField | frontend/src/pages/Onboarding.jsx:54-56 | setting one text field gives it the new value and leaves every other field unchanged |
| Onboarding.Payload | frontend/src/pages/Onboarding.jsx:59-95 | the payload carries the user's e-mail and id and all four sections but no chatbot data; graduation is complete exactly when the status is 'Completed', and the work style is environment and type joined by '-' |
| Onboarding.SaveData | frontend/src/pages/Onboarding.jsx:97-113 | nothing is sent when the signed-in user has no e-mail address; otherwise the payload of the form is sent |
| Onboarding.IndexOf | frontend/src/pages/Onboarding.jsx:196-197 | finds the first occurrence of the separator, or reports that there is none |
| Onboarding.FirstPiece | frontend/src/pages/Onboarding.jsx:196 | `split('-')[0]`: the longest separator-free prefix |
| Onboarding.SecondPiece | frontend/src/pages/Onboarding.jsx:197 | `split('-')[1]`: missing exactly when there is no separator, and separator-free otherwise |
| Onboarding.IndexOfJoint | frontend/src/pages/Onboarding.jsx:196-197 | in `a + "-" + b` with no '-' in `a`, the first separator is at the length of `a` |
| Onboarding.PiecesOfJoint | frontend/src/pages/Onboarding.jsx:196-197 | splitting `a + "-" + b` gives back `a` and the first piece of `b`, and `b` itself when it has no '-' |
| Onboarding.Flatten | frontend/src/pages/Onboarding.jsx:165-198 | loading a profile keeps the e-mail, id, specialization and other degree of the form, sets the status to 'Pursuing' exactly when a graduation year is stored, and takes 12th as completed unless the profile says otherwise |
| Onboarding.EmptyProfileReloadsEmpty | frontend/src/pages/Onboarding.jsx:165-198 | a profile with no sections loads as the initial form |
| Onboarding.NewProfileRoundTrip | frontend/src/pages/Onboarding.jsx:165-198 | from the payload of lines 59-95: saving a form as a new profile and loading it back gives the form again, except the status, provided neither work-style half contains '-' |
| Onboarding.MergedProfileRoundTrip | frontend/src/pages/Onboarding.jsx:165-198 | from the payload of lines 59-95: the same round trip holds when the payload is merged into an existing profile |
| Onboarding.DashInEnvironmentIsLost | frontend/src/pages/Onboarding.jsx:196-197 | with the join of line 91: an environment "x-y" reloads as "x" and its "y" replaces the work-style type |
| Onboarding.LeavesForDashboard | frontend/src/pages/Onboarding.jsx:130-157 | the page leaves for the dashboard exactly when the profile has onboarded and no retake was asked for |
| Onboarding.PageCatchesWhatGuardMisses | frontend/src/pages/Onboarding.jsx:130-157 | the onboarded profiles that the route guard lets through are exactly those whose completion value is not `true`, and the page sends each of them to the dashboard |
| Onboarding.OnboardingPage.constructor | frontend/src/pages/Onboarding.jsx:19-52 | the page starts at step 1 with the initial form |
| Onboarding.OnboardingPage.UpdateFormData | frontend/src/pages/Onboarding.jsx:54-56 | the form becomes the update applied to it and the step is kept |
| Onboarding.OnboardingPage.HandleNext | frontend/src/pages/Onboarding.jsx:208-211 | the form as it stands is saved and the step advances by exactly one |
| Onboarding.OnboardingPage.HandleFinish | frontend/src/pages/Onboarding.jsx:215-220 | the form is saved and the user goes to the dashboard whether or not the save succeeded |
| Onboarding.OnboardingPage.Back | frontend/src/pages/Onboarding.jsx:274-276 | from steps 2, 3 and 4 Back returns to the previous step; the form is kept |
| Onboarding.OnboardingPage.FetchUserData | frontend/src/pages/Onboarding.jsx:115-206 | with an e-mail the form takes the user's e-mail and id; a found profile either redirects (exactly when it has onboarded and no retake was asked) or is flattened into the form; without an e-mail nothing changes |
| Step1Academic.IsFormValidIff | frontend/src/components/onboarding/Step1Academic.jsx:17-24 | step 1 may continue exactly when locality, district, state, 10th board, year and percentage are filled in and, if 12th is completed, its stream and percentage too |
| Step1Academic.PercentageRangeNotChecked | frontend/src/components/onboarding/Step1Academic.jsx:17-24 | with the input bounds of lines 97-104: a 10th percentage of "5", below the input's minimum of 35, still passes the step's check |
| Step1Academic.SubjectToggle | frontend/src/components/onboarding/Step1Academic.jsx:11-15 | the subject click updates only the 12th subjects |
| Step1Academic.SubjectToggleFlipsOne | frontend/src/components/onboarding/Step1Academic.jsx:11-15 | a click on a subject negates its mark (an absent subject becomes marked), adds it to the keys and leaves every other subject and field unchanged |
| Step1Academic.SubjectToggleTwice | frontend/src/components/onboarding/Step1Academic.jsx:11-15 | two clicks restore the subject's mark, except that an absent subject is now stored as unmarked |
| Step1Academic.NotCompletedToggle | frontend/src/components/onboarding/Step1Academic.jsx:119-127 | the "12th not completed" box sets 12th completion to its negation and the stream to 'Not Completed' or '', and nothing else |
| Step1Academic.NotCompletedToggleValidity | frontend/src/components/onboarding/Step1Academic.jsx:17-127 | after ticking the box the step is valid exactly when location and 10th details are filled in; after unticking it the step is invalid, since the stream is cleared |
| Step2Graduation.IsFormValidIff | frontend/src/components/onboarding/Step2Graduation.jsx:11-23 | step 2 may continue exactly when a status is chosen and, unless it is 'Not Started', a degree and college are given, with the degree named when it is 'Other' |
| Step2Graduation.UnrequiredFieldsDoNotMatter | frontend/src/components/onboarding/Step2Graduation.jsx:7-23 | changing any text field other than status, degree, other degree and college never changes whether step 2 is valid |
| Step3Interests.Without | frontend/src/components/onboarding/Step3Interests.jsx:11 | filtering out an interest removes every copy of it and keeps every other interest |
| Step3Interests.WithoutAbsent | frontend/src/components/onboarding/Step3Interests.jsx:11 | filtering out an absent interest changes nothing |
| Step3Interests.WithoutAppended | frontend/src/components/onboarding/Step3Interests.jsx:11-13 | filtering out an interest just appended gives what filtering the list before it gives |
| Step3Interests.Toggle | frontend/src/components/onboarding/Step3Interests.jsx:8-15 | a selected interest is removed and every other one kept; an unselected one is appended |
| Step3Interests.ToggleTwiceRestores | frontend/src/components/onboarding/Step3Interests.jsx:8-15 | selecting an unselected interest and deselecting it gives the list back |
| Step3Interests.SetScore | frontend/src/components/onboarding/Step3Interests.jsx:17-20 | after a slider change the subject has the new score and every other subject keeps its score; a new subject adds one entry |
| Step3Interests.DisplayedScore | frontend/src/components/onboarding/Step3Interests.jsx:164-170 | a subject without a score shows 5 and one with a non-zero score shows that score |
| Step3Interests.SliderShowsItsScore | frontend/src/components/onboarding/Step3Interests.jsx:17-171 | after moving a slider to a score from 1 to 10 that score is shown, and every other subject shows what it showed before |
| Step3Interests.IsFormValidIff | frontend/src/components/onboarding/Step3Interests.jsx:22-26 | step 3 may continue exactly when at least three interests are chosen and both work-style halves are set |
| Step3Interests.ContentOf | frontend/src/components/onboarding/Step3Interests.jsx:41-104 | content exists exactly for the seven listed degrees |
| Step3Interests.Content | frontend/src/components/onboarding/Step3Interests.jsx:107 | an unknown degree uses the 'Other' content |
| Step3Interests.OfferedInterests | frontend/src/components/onboarding/Step3Interests.jsx:110-114 | the offered interests are the degree's own, then the nine general hobbies, then 'Other' |
| Step3Interests.UnknownDegreeGetsOtherOffer | frontend/src/components/onboarding/Step3Interests.jsx:107-116 | an unknown degree is offered the twelve interests and the three subjects of 'Other' |
| Step4Chatbot.CareerPath | frontend/src/components/onboarding/Step4Chatbot.jsx:284-294 | the category saved with the prediction is never Urban; a career name mentioning teacher, bank, government or clerk is Degree-Based; it is Communication & Arts exactly when no such word but design, creative or arts occurs, and Rural exactly when none of those nor an exam word (upsc, ias, ips) but rural, agriculture or extension occurs |
| Step4Chatbot.ViewDashboardPath | frontend/src/components/onboarding/Step4Chatbot.jsx:424-431 | the "View Dashboard" button only ever picks Degree-Based, Communication & Arts or Skill-Based |
| Step4Chatbot.NarrowWordsAreFullWords | frontend/src/components/onboarding/Step4Chatbot.jsx:427-430 | against lines 286-288: the button's key words are among the prediction's key words |
| Step4Chatbot.MappingsAgreeWhereNarrowDecides | frontend/src/components/onboarding/Step4Chatbot.jsx:284-431 | where the button picks Degree-Based so does the prediction; where it picks Communication & Arts so does the prediction unless the name mentions "clerk"; a Skill-Based prediction stays Skill-Based under the button |
| Step4Chatbot.ExamCareerPathsDiffer | frontend/src/components/onboarding/Step4Chatbot.jsx:424-431 | against lines 290-291: a UPSC career without other key words is Degree-Based for the prediction and Skill-Based for the button |
| Step4Chatbot.FallbackPath | frontend/src/components/onboarding/Step4Chatbot.jsx:301-305 | without careers the category is Communication & Arts exactly when Public Speaking is an interest or the stream is Arts, Degree-Based exactly when not that but the stream is Science or a degree is given, and Skill-Based otherwise |
| Step4Chatbot.CareerLabel | frontend/src/components/onboarding/Step4Chatbot.jsx:297 | a career's label starts with its name |
| Step4Chatbot.Labels | frontend/src/components/onboarding/Step4Chatbot.jsx:297 | there is one label per career, in order |
| Step4Chatbot.Summary | frontend/src/components/onboarding/Step4Chatbot.jsx:297-300 | with no insights the summary is the careers' labels joined by "; " |
| Step4Chatbot.SummaryNamesEveryCareer | frontend/src/components/onboarding/Step4Chatbot.jsx:297 | every career's name occurs in the summary |
| Step4Chatbot.SummaryQuotesFirstInsights | frontend/src/components/onboarding/Step4Chatbot.jsx:298-300 | each of the first two insights occurs in the summary |
| Step4Chatbot.ProfilePayload | frontend/src/components/onboarding/Step4Chatbot.jsx:312-350 | this step's payload carries the chatbot data; the graduation field is the specialization when there is one and the degree otherwise; the work style is joined by " - " |
| Step4Chatbot.PredictionPayload | frontend/src/components/onboarding/Step4Chatbot.jsx:252-350 | the prediction saves the careers the service sent, or else those held, and the category of the first of them, or the form's fallback category when there are none |
| Step4Chatbot.ViewDashboardPayload | frontend/src/components/onboarding/Step4Chatbot.jsx:419-477 | the button saves the held careers and the button's category of the first, Skill-Based when there are none |
| Step4Chatbot.FallbackPayload | frontend/src/components/onboarding/Step4Chatbot.jsx:103-143 | the save-and-leave path always saves Skill-Based, with the insights joined as summary or a fixed "unavailable" text when there are none |
| Step4Chatbot.ButtonOverwritesExamPath | frontend/src/components/onboarding/Step4Chatbot.jsx:419-477 | after lines 290-291: for a UPSC career the prediction stores Degree-Based, and pressing "View Dashboard" afterwards overwrites it with Skill-Based |
| Step4Chatbot.StepFourSaveReloads | frontend/src/components/onboarding/Step4Chatbot.jsx:331-340 | as also at lines 124-133: a profile saved by this step reloads with a trailing space on the environment, a leading space on the type, the specialization in place of the degree when there is one, and no other interests |
| Step4Chatbot.RenderMessageText | frontend/src/components/onboarding/Step4Chatbot.jsx:382-392 | a message is shown as a recommendation exactly when it starts with the recommendation prefix; otherwise it is translated exactly when it is a key |
| Step4Chatbot.RecommendationShowsCategory | frontend/src/components/onboarding/Step4Chatbot.jsx:382-390 | for the message of line 308: the recommendation message shows the category's name |
| Step4Chatbot.RiskMessage | frontend/src/components/onboarding/Step4Chatbot.jsx:270-273 | a risk message appears exactly when the risk is not undefined. A number gives its label, and a `null` risk reads Medium |
| Step4Chatbot.Start | frontend/src/components/onboarding/Step4Chatbot.jsx:31-91 | the step keeps chatting exactly when the start succeeded with a question; otherwise it saves and leaves with its state unchanged |
| Step4Chatbot.Send | frontend/src/components/onboarding/Step4Chatbot.jsx:159-250 | a blank answer does nothing; otherwise the trimmed answer is the next message shown, whatever follows |
| Step4Chatbot.ChatKeepsTracking | frontend/src/components/onboarding/Step4Chatbot.jsx:13-14 | through lines 52-55 and 216-219: from the start and through every start and answer, the current question is the last one queued |
| Step4Chatbot.SendOnlyAppends | frontend/src/components/onboarding/Step4Chatbot.jsx:196-219 | an answer grows the question queue by at most one id and only appends to the insights |
| Step4Chatbot.FinalInsightsMissThePrediction | frontend/src/components/onboarding/Step4Chatbot.jsx:196-346 | when the final answer brings insights, the step's state holds them but the prediction is handed the insights from before the answer |
| Step4Chatbot.SendIntended | frontend/src/components/onboarding/Step4Chatbot.jsx:196-203 | the intended step leaves the same state and hands the prediction exactly the insights that state holds |
| Step4Chatbot.IntendedPredictionKeepsAllInsights | frontend/src/components/onboarding/Step4Chatbot.jsx:252-350 | with the intended hand-over the saved insights are all those held before plus those of the final answer |
| Step4Chatbot.PredictionSendsAllInsights | frontend/src/components/onboarding/Step4Chatbot.jsx:194-203 | after a completed answer the step holds the insights it held before followed by those of the answer |
| Step4Chatbot.ChatbotStep.constructor | frontend/src/components/onboarding/Step4Chatbot.jsx:9-28 | the step starts in its initial chat state |
| Step4Chatbot.ChatbotStep.Initialize | frontend/src/components/onboarding/Step4Chatbot.jsx:31-91 | starting the chat moves the state and picks the action as the start function says |
| Step4Chatbot.ChatbotStep.HandleSend | frontend/src/components/onboarding/Step4Chatbot.jsx:159-250 | sending an answer moves the state and picks the action as the send function says |
| Dashboard.OnlyFirstFiveJobsCount | frontend/src/pages/Dashboard.jsx:184-206 | recommended jobs after the fifth never change the dashboard's tally |
| Dashboard.UnlistedInterestAddsNothing | frontend/src/pages/Dashboard.jsx:74-93 | an interest whose lower-cased text is in none of the five lists adds no points |
| Dashboard.WeakSubjectAddsNothing | frontend/src/pages/Dashboard.jsx:95-113 | a subject scored below 7 adds no points, whatever its name |
| Dashboard.Significant | frontend/src/pages/Dashboard.jsx:223-229 | at most the five areas are kept, each scoring more than 5% of the total, and none is kept exactly when no area exceeds 5% |
| Dashboard.SignificantNotEmpty | frontend/src/pages/Dashboard.jsx:223-229 | with a positive total at least one area exceeds 5% |
| Dashboard.TopAreasOfPositiveTotal | frontend/src/pages/Dashboard.jsx:223-232 | with a positive total one to three areas are shown, each above 5%, by non-increasing score, and no significant area left out scores more than one shown |
| Dashboard.TopOfKept | frontend/src/pages/Dashboard.jsx:229-231 | sorting the kept areas by score and cutting at three keeps one to three of the highest, in non-increasing order |
| Dashboard.SharesOfPositiveTotal | frontend/src/pages/Dashboard.jsx:223-241 | with a positive total the shown shares are the top areas in order, sum to exactly 100, and every share but the first is its area's rounded percentage |
| Dashboard.DefaultSharesSumToHundred | frontend/src/pages/Dashboard.jsx:50-54 | the default breakdown 45/30/25 sums to 100 |
| Dashboard.SharesOfSumToHundred | frontend/src/pages/Dashboard.jsx:209-241 | the breakdown of any tally has one to three shares summing to exactly 100 |
| Dashboard.InterestStatsSumToHundred | frontend/src/pages/Dashboard.jsx:49-242 | every breakdown the dashboard shows, with or without a profile, has one to three shares summing to exactly 100 |
| Dashboard.FixCanReorder | frontend/src/pages/Dashboard.jsx:230-239 | the tally 67, 67, 0, 66, 0 is shown as Technology 33, Creative 34, Social 33: the rounding fix can leave the first share below the second |
| Dashboard.GetInterestStats | frontend/src/pages/Dashboard.jsx:49-242 | the method computes the breakdown the specification function defines |
| Dashboard.SharesFromScores | frontend/src/pages/Dashboard.jsx:209-241 | from the tally, the method computes the specified shares |
| Dashboard.BumpFirst | frontend/src/pages/Dashboard.jsx:234-239 | the in-place fix of the first share gives the specified fixed list |
| Dashboard.DashboardScores | frontend/src/pages/Dashboard.jsx:56-206 | adding up the stream, degree, interests, subjects, strengths, work style, career path, location and first five jobs gives the specified tally |
| Dashboard.TopMatches | frontend/src/pages/Dashboard.jsx:244-271 | at most three matches, the first jobs in order with their titles and ids; each shown match lies in [80, 95]: a job's own match when it is in range, else 93, 88 or 83 by position |
| Dashboard.TopMatchesOfListing | frontend/src/pages/Dashboard.jsx:244-271 | on the recommendation list the safety check never fires: the matches shown are 95, 92 and 89 |
| Dashboard.CurrentLevel | frontend/src/pages/Dashboard.jsx:299-304 | a skill's current level never exceeds 90 |
| Dashboard.SkillGaps | frontend/src/pages/Dashboard.jsx:273-318 | the fixed defaults appear exactly when there is no profile, no job, or the top job lists no skill; otherwise one gap per skill among the top job's first three, each with target 85 and the skill's current level |
| Dashboard.EmptyStrengthHoldsEverySkill | frontend/src/pages/Dashboard.jsx:294-297 | an empty strength makes every skill count as held |
| Dashboard.SkillsToImprove | frontend/src/pages/Dashboard.jsx:320-327 | when some subject is scored below 7 the list holds exactly those subjects; otherwise it is the three fixed skills |
| Breakdown.PlusAssoc | frontend/src/pages/Dashboard.jsx:56-206 | adding points to the tally is associative, so the order of the sources' batches does not matter |
| Breakdown.AddEach | frontend/src/pages/Dashboard.jsx:76-93 | the `forEach` loop adds every element's points to the tally |
| Breakdown.SumPointsAppend | frontend/src/pages/Dashboard.jsx:76-93 | the points of a concatenation are the points of its halves added together |
| Breakdown.SumPointsSkipsZero | frontend/src/pages/Dashboard.jsx:76-93 | an element worth no points can be dropped from the sum |
| Breakdown.Entries | frontend/src/pages/Dashboard.jsx:223 | the tally lists exactly five areas |
| Breakdown.Percent | frontend/src/pages/Dashboard.jsx:226-232 | the whole percentage is the share rounded half up: it lies within half a point of the exact share, in [0, 100] for a score within the total, and is positive exactly when the share is at least half a percent |
| Breakdown.HigherScoreIsStrictWeakOrder | frontend/src/pages/Dashboard.jsx:230 | ordering by score, highest first, is a strict weak order, so the stable sort is well defined |
| Breakdown.Take | frontend/src/pages/Dashboard.jsx:231 | `slice(0, n)`: the first n elements, or all when there are fewer |
| Breakdown.Rounded | frontend/src/pages/Dashboard.jsx:224-232 | each kept area keeps its name and gets its rounded percentage |
| Breakdown.FixSumMakesHundred | frontend/src/pages/Dashboard.jsx:234-239 | after the fix a non-empty list sums to exactly 100 and only the first share's percentage changed |
| Breakdown.TopThree | frontend/src/pages/Dashboard.jsx:229-231 | the sort is a permutation and its first three are by non-increasing score, none below a later one |
| Breakdown.SomeAreaHoldsAFifth | frontend/src/pages/Dashboard.jsx:209-229 | some area holds at least a fifth of the total |
| Report.Normalized | frontend/src/utils/generatePDF.js:325-330 | each of the five areas, in order, with its rounded percentage of the total, or 0 for all when the total is 0 |
| Report.EntryPercentBounded | frontend/src/utils/generatePDF.js:329 | an area's rounded percentage lies between 0 and 100 |
| Report.DistributionShape | frontend/src/utils/generatePDF.js:303-341 | the printed distribution is a permutation of the areas with a positive rounded percentage, at most five, each in (0, 100], by non-increasing percentage, and empty exactly when the total is 0 |
| Report.ShownBounded | frontend/src/utils/generatePDF.js:329-330 | every shown area's percentage is in (0, 100] |
| Report.ShownEmptyIff | frontend/src/utils/generatePDF.js:326-330 | no area is shown exactly when the total is 0 |
| Report.SortedShares | frontend/src/utils/generatePDF.js:330 | sorting the shown shares is a permutation that keeps their bounds and orders them by non-increasing percentage |
| Report.InterestDistribution | frontend/src/utils/generatePDF.js:304-330 | the loop over the interests computes the specified distribution of the report's tally |
| Report.StartupCountsAsCreative | frontend/src/utils/generatePDF.js:316-322 | the report matches words as substrings: the interest "Startup" adds 12 to Creative since it contains "art" |
| Report.Titles | frontend/src/utils/generatePDF.js:350 | one cleaned title per job, in order |
| Report.HeadingsFrom | frontend/src/utils/generatePDF.js:347-357 | the headings from a position onward number at most the jobs left |
| Report.HeadingsFromAreNumbered | frontend/src/utils/generatePDF.js:347-357 | every heading carries its job's position plus one and its non-empty title, in increasing order |
| Report.HeadingsFromListAll | frontend/src/utils/generatePDF.js:347-357 | every job with a non-empty cleaned title gets a heading |
| Report.FirstTenHeadings | frontend/src/utils/generatePDF.js:344-357 | at most ten headings, numbered by each job's own position, so a skipped job leaves a gap; every one of the first ten jobs with a non-empty title is listed |
| Report.ListJobs | frontend/src/utils/generatePDF.js:347-357 | the report's forward loop over the first ten jobs computes the specified headings |
| Report.SkillNames | frontend/src/utils/generatePDF.js:398-401 | the names are the skills cleaned one by one, filtered to those that are neither empty nor a bare database id: every such name is kept, in order |
| Report.KeySkills | frontend/src/utils/generatePDF.js:398-405 | at most the first five kept names, followed by "..." exactly when more were kept |
| Report.DescriptionText | frontend/src/utils/generatePDF.js:389-396 | no description line exactly when the cleaned description is empty; otherwise the cleaned text, cut to 200 characters plus "..." when longer |
| Report.DetailedRoadmaps | frontend/src/utils/generatePDF.js:557-563 | the first three jobs that carry a roadmap, in list order, or all of them when there are fewer |
| CleanText.DropIdsRemovesId | frontend/src/utils/generatePDF.js:27 | a 24-digit hex run, in either case, between word boundaries is removed. The text before it, holding no id, is kept, and the text after it is cleaned as if it stood alone |
| CleanText.DropIdsKeepsPrefix | frontend/src/utils/generatePDF.js:27 | a prefix holding no id and ending at a word boundary, followed by a word boundary, is kept as it is |
| CleanText.DropIdsOfWord | frontend/src/utils/generatePDF.js:27 | a single word is removed whole when it is exactly 24 hex digits and kept whole otherwise. So 25 hex digits, or an id glued to a letter, survive |
| CleanText.DropIdsKeepsOtherChars | frontend/src/utils/generatePDF.js:27 | removing ids removes hex digits only: all other characters stay, in order |
| CleanText.DropIdsFromWithoutIds | frontend/src/utils/generatePDF.js:27 | a text with no word-bounded 24-digit hex run is left alone |
| CleanText.DropJunkRemovesWord | frontend/src/utils/generatePDF.js:29 | "undefined", "null" and "[object Object]", in any letter case, are removed. The text before the word, in which no junk word starts, is kept, and the text after it is cleaned as if it stood alone |
| CleanText.DropJunkKeepsPrefix | frontend/src/utils/generatePDF.js:29 | a prefix in which no junk word starts is kept as it is |
| CleanText.JunkFormedByRemovalStays | frontend/src/utils/generatePDF.js:29 | the replacement is a single pass: "nunullll" loses its inner "null" and becomes "null" |
| CleanText.DropJunkWithoutJunk | frontend/src/utils/generatePDF.js:29 | a text in which no junk word starts is left alone |
| CleanText.SkipSpaces | frontend/src/utils/generatePDF.js:31 | drops exactly the leading whitespace |
| CleanText.Collapse | frontend/src/utils/generatePDF.js:31 | collapsing whitespace never lengthens the text |
| CleanText.CollapseIsSingleSpaced | frontend/src/utils/generatePDF.js:31 | after collapsing every whitespace run is a single space, and the text starts with whitespace only when the input did |
| CleanText.SkipSpacesKeepsOtherChars | frontend/src/utils/generatePDF.js:31 | skipping leading whitespace keeps every other character |
| CleanText.CollapseKeepsOtherChars | frontend/src/utils/generatePDF.js:31 | collapsing keeps every non-whitespace character, in order |
| CleanText.CollapseOfSingleSpaced | frontend/src/utils/generatePDF.js:31 | collapsing is the identity on single-spaced text |
| CleanText.Trim | frontend/src/utils/generatePDF.js:31 | the trimmed text is a slice of the input with no whitespace at either end |
| CleanText.TrimOfTrimmed | frontend/src/utils/generatePDF.js:31 | text without whitespace at either end is not changed by trimming |
| CleanText.Clean | frontend/src/utils/generatePDF.js:22-35 | a falsy input gives ''; the result never holds a control character. Id and junk removal are stated by the three lemmas that follow |
| CleanText.CleanIgnoresId | frontend/src/utils/generatePDF.js:27 | removing an id from between word boundaries does not change what the text cleans to |
| CleanText.CleanOfJunkWord | frontend/src/utils/generatePDF.js:29 | each junk word, in any letter case, cleans to '' |
| CleanText.CleanIgnoresJunkWord | frontend/src/utils/generatePDF.js:29 | in a text without ids, removing a junk word, with no junk word starting before it, does not change what the text cleans to |
| CleanText.CleanKeepsOrdinaryText | frontend/src/utils/generatePDF.js:22-35 | non-empty text without ids, junk words or control characters, single-spaced and trimmed, is returned unchanged |
| CleanText.WordsKeepTheirSpacing | frontend/src/utils/generatePDF.js:31-33 | words of letters separated by single spaces come through the last two stages unchanged |
| CleanText.JunkGoesInsideWords | frontend/src/utils/generatePDF.js:29 | junk words are removed inside words: "Nullify" becomes "ify" |
| CleanText.ControlBetweenSpacesLeavesTwoSpaces | frontend/src/utils/generatePDF.js:31-33 | since whitespace is collapsed before control characters are removed, "a", a space, U+0001, a space and "b" come out as "a" and "b" separated by two spaces |

Two details of the roadmap view (backend/routes/roadmapRoutes.js:228-240):
- With no score computed, it returns the match stored on the roadmap.
- A computed score is set on the returned roadmap, but the record is not saved.

## Left out

- Express and Mongoose plumbing: connection, request parsing, status codes other than the ones the handlers choose, and the seeding of sample jobs (backend/routes/jobRoutes.js:19-40).
- `GET /api/jobs` with its query filter and `POST /api/jobs` (backend/routes/jobRoutes.js:297-312, 559-567): database queries with no decision logic of their own.
- Regular-expression database queries are not evaluated. `GET /api/roadmap/:jobTitle` uses one, and so does the jobs location filter. The chatbot answer lookup (backend/routes/chatbotRoutes.js:109-112) becomes a `matched` parameter saying whether a stored answer matched.
- Randomness and clocks are parameters. The random pick of a chatbot answer is an index. The session id's time-and-random suffix is a `suffix` string. Jobs without an id would get a temporary random id; every job in the model has its database id, so none is generated. Timestamps and `updatedAt` are not modelled.
- The admin endpoints for creating and listing chatbot answers (backend/routes/chatbotRoutes.js from line 168) only store and read records.
- React rendering, `fetch`/`axios`, `setTimeout` delays, translations, scrolling and the PDF page layout are not modelled. Each asynchronous response is a parameter of the method that handles it, and a failed request is a distinct value of that parameter.
- Step4Chatbot: the bot messages before the recommendation (the first career, its salary, the other paths, "generating", "saved") are not modelled. The recommendation, its risk label and the saved payload are. After the prediction the save result only chooses between showing the button and a delayed redirect.
- Step4Chatbot: the start URL's user identifier falls back to `'user_' + Date.now()`; this is not modelled.
- Mongoose `Map` fields (subject likes): the backend reads them as plain objects, which finds no entry (see Findings). ChatbotRoutes.TagSet, ChatbotRoutes.Questions, UserRoutes.ProfileSkillGaps and UserRoutes.ProfileDashboard use the intended reading, in insertion order; the frontend receives the map as a plain JSON object. `Object.entries` lists integer-like keys first; that order is not modelled.
- RoadmapRoutes.RoadmapStore.Upsert, UserRoutes.Onboard: a `findOne` filter field whose value is undefined (no `jobTitle`, no `email`) is read as the database driver sends it, a null that matches only documents without the field. Both fields are required, so nothing matches and the creation fails validation with 500. Set-ups that strip undefined filter fields, so that the first stored document matches, are not modelled.
- Salary bounds are whole numbers. A fractional bound, which the schema's Number type allows, is not modelled, because the model has no decimal rendering of numbers (Ranking.SalaryText, RoadmapRoutes.SalaryStatText).
- CleanText.Clean: its own contract says only that falsy input gives '' and that no control character survives. Removal of ids and junk words relates two texts, so CleanText.CleanIgnoresId, CleanText.CleanOfJunkWord and CleanText.CleanIgnoresJunkWord state it.
- The `firstName` a chat start reads is not in the user schema, so the new session's name is always ''. The graduation `specialization` the onboarding page sends is not in the schema either, so it is not stored.
- Step3Interests: the slider value goes through `parseInt`; the model receives the parsed integer.
- Report.SkillNames: the branch that reads `s.name` from skill objects is not modelled; skills are strings. The Tags line applies the same filter without the cap of five and is not modelled separately.
- Dashboard.TopMatches: `Math.round` of the shown match is not modelled, because the listing only produces whole numbers.
- Step3Interests.Content: lookups of prototype keys such as "constructor" in the degree table are not modelled; only the seven listed degrees have content.
- The chat-session, user-answer and chatbot-answer records are inlined into the handlers' stores rather than modelled as separate Mongoose models.
- jsPDF layout, fonts, bar widths and other floating-point drawing are not modelled; only what text the report contains.
- Emoji in chatbot replies are opaque constants.
- The reconciliation computes each job's relevance inside the scan. The model tabulates the relevances first; they depend only on the career and the job.
- Scoring and sorting work on `seq` values. The source's in-place `Array.prototype.sort` is modelled as a stable insertion sort returning a new sequence. JavaScript's sort is stable since ES2019.
- Database ids are assumed distinct, as MongoDB guarantees for `_id`.

## Findings

| source | as written | input that shows it | evidently intended | confidence | as-written member | corrected member |
|---|---|---|---|---|---|---|
| backend/routes/jobRoutes.js:211 | `otherJobs`, declared `const` at line 141, is reassigned here, which throws a TypeError, so the handler answers 500 | a user with chatbot careers none of which matches a job title or tag | the claimed jobs are listed first, marked recommended, followed by the unclaimed ones | high, not executed | JobRoutes.ServerErrorIffCareersButNoMatch | JobRoutes.IntendedListsClaimsThenUnclaimed |
| frontend/src/App.jsx:78 | the guard redirects only when `hasData === true`, but the completion expression yields its first truthy operand, often a string | a profile whose only data is the 10th board "CBSE" | every onboarded profile is sent to the dashboard | high, not executed | App.GuardMissesBoardOnlyProfile | App.GuardIntendedRedirectsOnboarded |
| backend/routes/chatbotRoutes.js:28 | `subjectScores.Math` reads a property of the Mongoose `Map` `subjectLikes`, which is undefined, so Math always counts as 0 | a Science learner past 12th who likes Coding and scores Math 9 | the technical tags, from the stored Math score | medium, not executed | ChatbotRoutes.MathAsWrittenIsAlwaysZero | ChatbotRoutes.TagSet |
| backend/routes/userRoutes.js:142 | `Object.entries` of the Mongoose `Map` `subjectLikes` lists no entry, so the default gaps always show | a profile with Math scored 4 | a gap for Math from 60 to 90 | medium, not executed | UserRoutes.GapsAsWrittenAreAlwaysDefault | UserRoutes.ProfileSkillGaps |
| frontend/src/components/onboarding/Step4Chatbot.jsx:196-203 | the final prediction (lines 298-299 and 346) reads the insights from the render that started it, so the insights of the final answer are missing from the saved summary and insights | a final answer that completes the chat and brings one insight | the saved insights include those of the final answer | medium, not executed | Step4Chatbot.FinalInsightsMissThePrediction | Step4Chatbot.IntendedPredictionKeepsAllInsights |
