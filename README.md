# EXEsystem core rules in Dafny

EXEsystem is an exam and question-bank platform with gamified practice and AI-assisted tutoring. It has a Spring Boot back end and a Vue front end. This project models the sequential, in-memory rules of both halves and proves properties about them. There is one Dafny module per source file:

| module | source | what it models |
|---|---|---|
| `LearningPredictor` | `exe-frontend/src/utils/learningPredictor.ts` | the knowledge-state tracker: a Bayesian-knowledge-tracing update with forgetting, the trend and forgetting rate, predictions against fixed thresholds, the time-to-mastery estimate, the prioritised learning path and the weak points |
| `SmartRecommendation` | `exe-frontend/src/utils/smartRecommendation.ts` | the hybrid recommender: the implicit user-item rating matrix, cosine user similarity and collaborative filtering, the user profile and content similarity, popularity, blending, diversity and novelty re-ranking, reasons and top-N |
| `WrongRecordReview` | `BizWrongRecordServiceImpl.java` | wrong-answer records and their spaced-repetition ladder, with the daily-review filter |
| `CircuitBreaker` | `AiCircuitBreaker.java` | the CLOSED / OPEN / HALF_OPEN breaker around the AI service |
| `PracticeStore` | `exe-frontend/src/stores/practiceStore.ts` | the practice session store: answer checking, streaks, the adaptive-difficulty window, experience, navigation and achievement unlocking |
| `AchievementSystem` | `exe-frontend/src/utils/achievementSystem.ts` | experience and the level-up loop, titles and perks, and achievements unlocked from learning statistics |
| `BattleTiers`, `Battle` | `BattleGameManager.java` | ranked tiers and matchmaking neighbours, round scoring, game-over settlement, point updates, and the room where only a player's first answer per round counts |
| `JsonExtract` | `AiHttpClient.java` | extraction of the JSON payload from an AI reply |
| `KnowledgeExtraction` | `AiServiceV3.java` | chunking a long text, allocating the requested count to the chunks, and deduplicating knowledge points |
| `ExamStats` | `BizExamResultServiceImpl.java` | the score statistics of a paper and the per-knowledge-point analysis of one result |
| `GradingApproval` | `BizGradingApprovalServiceImpl.java` | the re-grading approval threshold, the PENDING -> APPROVED / REJECTED lifecycle and the status statistics |
| `Realm`, `Cultivation` | `RealmEnum.java`, `CultivationServiceImpl.java` | cultivation realms, breakthrough success and failure, realm names, the spirit-root bonus and the idle-time reward clamp |

Some helper modules hold the platform operations that the rules rely on:

- `Common`: Option, Java's truncating division and remainder, JavaScript's Math.round, floor, ceil and clamps, and the properties assumed of exp, sqrt and log10.
- `Text`: trim, ASCII case conversion, split, indexOf and replace.
- `Sorting`: a stable sort by a real key, which stands for `Array.prototype.sort` with a numeric comparator and for `ORDER BY ... DESC`.
- `SortedPrefix`: the first k elements of that sort are the k largest, which gives the top-20 neighbourhood of the recommender.
- `StringSort`: `Array.prototype.sort()` on strings.
- `OrderedMaps`: a JavaScript `Map` as an insertion-ordered list of entries.

The model has several kinds of member:

- **Pure code** becomes functions over datatypes.
- **Objects whose methods update fields in place** become classes. These are the predictor, the recommender, the practice store, the achievement tracker, the battle room, the breaker, the cultivation profile, and the grading and wrong-record services. Each method states its new state as a function of the old one. The achievement tracker, the predictor and the recommender also declare a `Valid()` invariant that their methods keep. The other classes expose their state as a value (`Snapshot()` or `Model()`), and the invariants of that value are lemmas about the step functions the methods are tied to, such as `CircuitBreaker.OperationsPreserveValid` and `Cultivation.SucceedStep`.
- **Loops in the source** become methods with loop invariants, proved against a specification function.

Time is always a `now` parameter in milliseconds. `Math.exp`, `Math.sqrt` and `Math.log10` are function parameters that are assumed only to have the properties stated by `IsExp`, `IsSqrt` and `IsLog10`, such as monotonicity and ranges. Java `int`/`long` and JavaScript numbers are unbounded integers and exact reals.

Three details of `smartRecommendation.ts` shape the recommender's model:

- Ranking ties are not broken by item id. The sort is stable, so tied items keep their candidate order (`Sorting`).
- `recommend` does not reject `topN <= 0`. `slice(0, topN)` is modelled as written, so a negative `topN` counts from the end.
- Content similarity is not renormalised to give a neutral value when both tag lists are empty. The Jaccard term is then 0/0 = NaN, and the item gets no content score (`Option.None`).

## Model

| member | source | states |
|---|---|---|
| Realm.FindByIndex | exe-backend/src/main/java/com/ice/exebackend/enums/RealmEnum.java:69-73 | a found realm is one of the listed realms and has the requested index; no result means no listed realm has it |
| Realm.GetByLevel | exe-backend/src/main/java/com/ice/exebackend/enums/RealmEnum.java:67-75 | the realm whose index is level / 10 under Java's truncating division when that index is 0..10, and ASCENSION otherwise |
| Realm.HighAndNegativeLevelsAscend | exe-backend/src/main/java/com/ice/exebackend/enums/RealmEnum.java:67-74 | levels of 100 and above, and levels of -10 and below (negative index), all resolve to ASCENSION |
| Realm.RealmOrdering | exe-backend/src/main/java/com/ice/exebackend/enums/RealmEnum.java:9-19 | a later realm never has a smaller base cap or bonuses, nor a higher success rate |
| Realm.GetByLevelMonotone | exe-backend/src/main/java/com/ice/exebackend/enums/RealmEnum.java:67-75 | along non-negative levels the realm index and base cap never decrease and the success rate never increases |
| Cultivation.SucceedStep | exe-backend/src/main/java/com/ice/exebackend/service/impl/CultivationServiceImpl.java:324-358 | a success keeps the profile non-negative, raises the level by exactly one, sets exp to max(0, exp - maxExp) and strictly raises attack and defense |
| Cultivation.SucceedCap | exe-backend/src/main/java/com/ice/exebackend/service/impl/CultivationServiceImpl.java:338-344 | at a multiple of ten the cap becomes the new realm's base; otherwise it becomes floor(1.2 * cap), never smaller than before |
| Cultivation.BoundaryEntersNextRealm | exe-backend/src/main/java/com/ice/exebackend/service/impl/CultivationServiceImpl.java:333-340 | crossing into level 10k (k in 1..9) enters realm k and resets the cap to that realm's base |
| Cultivation.FailStep | exe-backend/src/main/java/com/ice/exebackend/service/impl/CultivationServiceImpl.java:361-370 | a failure subtracts floor(cap / 5) clamped at zero, never raises exp, and leaves every other field unchanged |
| Cultivation.RealmName | exe-backend/src/main/java/com/ice/exebackend/service/impl/CultivationServiceImpl.java:373-383 | "凡人" for level 0, the bare name for ASCENSION, otherwise the realm's name followed by a non-empty level suffix |
| Cultivation.RealmNameFirstLevels | exe-backend/src/main/java/com/ice/exebackend/service/impl/CultivationServiceImpl.java:376-382 | the first level of realms 1..9 reads "<realm>初期" |
| Cultivation.RealmNameInnerLevels | exe-backend/src/main/java/com/ice/exebackend/service/impl/CultivationServiceImpl.java:376-382 | the other levels of realms 0..9 read "<realm> k层" with k the last digit, levels -9..-1 read "凡人 -k层", and every such name ends in 层 |
| Cultivation.AfkSettlement | exe-backend/src/main/java/com/ice/exebackend/service/impl/CultivationServiceImpl.java:103-131 | no baseline iff no previous settlement time; too soon iff under ten minutes; otherwise the minutes are min(elapsed, 1440), in 10..1440, and the exp is the truncated minutes * rate |
| Cultivation.ElapsedMonotone | exe-backend/src/main/java/com/ice/exebackend/service/impl/CultivationServiceImpl.java:116 | elapsed whole minutes are non-negative and grow with the clock |
| Cultivation.RateNonNegative | exe-backend/src/main/java/com/ice/exebackend/service/impl/CultivationServiceImpl.java:130-131 | for a non-negative level and defense the per-minute rate is at least 1 |
| Cultivation.AfkExpMonotone | exe-backend/src/main/java/com/ice/exebackend/service/impl/CultivationServiceImpl.java:131 | AFK experience is non-negative and non-decreasing in the minutes |
| Cultivation.AfkRewardMonotone | exe-backend/src/main/java/com/ice/exebackend/service/impl/CultivationServiceImpl.java:116-131 | once an absence is settled, a later clock also settles, never for less, and never for more than a full day's reward |
| Cultivation.Profile.constructor | exe-backend/src/main/java/com/ice/exebackend/service/impl/CultivationServiceImpl.java:56-70 | a fresh profile is level 0 with no experience, the mortal cap of 100, attack 10, defense 5, a null max HP, no spirit roots, and the clock as its settlement time |
| Cultivation.Profile.DoSuccess | exe-backend/src/main/java/com/ice/exebackend/service/impl/CultivationServiceImpl.java:324-358 | the new numeric state is Succeed of the old one; the settlement time is untouched |
| Cultivation.Profile.DoFail | exe-backend/src/main/java/com/ice/exebackend/service/impl/CultivationServiceImpl.java:361-370 | the new numeric state is Fail of the old one; the settlement time is untouched |
| Cultivation.Profile.SettleAfkReward | exe-backend/src/main/java/com/ice/exebackend/service/impl/CultivationServiceImpl.java:103-143 | the load adds the spirit-root bonus; the outcome is computed from the previous settlement time and the bonus defense; the settlement time moves to now in every case; a settled reward is credited through addExp, whose load adds the bonus again; other outcomes keep the once-bonused stats |
| Cultivation.Succeed | exe-backend/src/main/java/com/ice/exebackend/service/impl/CultivationServiceImpl.java:324-358 | no ensures of its own; SucceedStep, SucceedCap and BoundaryEntersNextRealm state a breakthrough's effect |
| Cultivation.Fail | exe-backend/src/main/java/com/ice/exebackend/service/impl/CultivationServiceImpl.java:361-370 | no ensures of its own; FailStep states a failed breakthrough's effect |
| Cultivation.CreditStep | exe-backend/src/main/java/com/ice/exebackend/service/impl/CultivationServiceImpl.java:79-96 | a credit (doubled on an epiphany) raises exp by exactly the gained amount and attack by a tenth of it, at least one, keeps the profile valid and changes nothing else |
| Cultivation.SettledCreditKeepsValid | exe-backend/src/main/java/com/ice/exebackend/service/impl/CultivationServiceImpl.java:116-133 | a settled absence credits a non-negative amount, keeps the profile valid and strictly raises attack |
| Cultivation.Profile.AddExp | exe-backend/src/main/java/com/ice/exebackend/service/impl/CultivationServiceImpl.java:79-96 | the new numeric state is LoadAndCredit of the old one: the spirit-root bonus that the load adds, then the credit, both stored; max HP gets the bonus; settlement time and roots are untouched |
| Cultivation.RootLevel | exe-backend/src/main/java/com/ice/exebackend/service/impl/CultivationServiceImpl.java:393-395 | a root's level is the largest l with 10·l² ≤ exp, the integer part of √(exp/10); below 10 experience, negative included, it is 0 |
| Cultivation.RootLevelMonotone | exe-backend/src/main/java/com/ice/exebackend/service/impl/CultivationServiceImpl.java:393-395 | more root experience never gives a lower level |
| Cultivation.SpiritBonusExactly | exe-backend/src/main/java/com/ice/exebackend/service/impl/CultivationServiceImpl.java:407-431 | the summed bonus is 5 attack per METAL and 8 per FIRE level, 3 defense per EARTH and 2 per WATER level, 20 HP per WOOD level; it is never negative and is zero when every root has under 10 experience |
| Cultivation.Profile.ApplySpiritRootBonuses | exe-backend/src/main/java/com/ice/exebackend/service/impl/CultivationServiceImpl.java:398-437 | the loop over the roots adds the bonus to this profile's attack and defense, and to its max HP read as 100 when null |
| Cultivation.SpiritBonus | exe-backend/src/main/java/com/ice/exebackend/service/impl/CultivationServiceImpl.java:398-437 | no ensures of its own; SpiritBonusExactly states the per-root sums, and Profile.ApplySpiritRootBonuses is the loop proved equal to it |
| Cultivation.LoadAndCredit | exe-backend/src/main/java/com/ice/exebackend/service/impl/CultivationServiceImpl.java:74-95 | no ensures of its own; the stored result of addExp as written (bonus, then credit), which Profile.AddExp ensures and AsWrittenBonusCompounds shows compounding |
| Cultivation.CreditAll | exe-backend/src/main/java/com/ice/exebackend/service/impl/CultivationServiceImpl.java:79-96 | no ensures of its own; successive addExp credits without the bonus, which IntendedBonusAppliedOnce relates to the shown profile |
| Cultivation.LoadAndCreditAll | exe-backend/src/main/java/com/ice/exebackend/service/impl/CultivationServiceImpl.java:74-95 | no ensures of its own; successive addExp calls as written, which AsWrittenBonusPerCredit relates to CreditAll |
| Cultivation.Displayed | exe-backend/src/main/java/com/ice/exebackend/service/impl/CultivationServiceImpl.java:398-437 | no ensures of its own; the intended display copy with the bonus, which IntendedBonusAppliedOnce shows carries it exactly once |
| Cultivation.AsWrittenBonusCompounds | exe-backend/src/main/java/com/ice/exebackend/service/impl/CultivationServiceImpl.java:74-95 | as written, two addExp calls leave attack and defense higher than crediting alone by twice the bonus; one METAL root at 10 experience and two addExp(0) calls take attack from 10 to 22 |
| Cultivation.IntendedBonusAppliedOnce | exe-backend/src/main/java/com/ice/exebackend/service/impl/CultivationServiceImpl.java:398-437 | with the bonus kept out of the stored profile, showing it after any sequence of credits equals crediting the shown starting profile, so the bonus counts once; the as-written stored attack and defense carry |amounts| - 1 bonuses more |
| Cultivation.AsWrittenBonusPerCredit | exe-backend/src/main/java/com/ice/exebackend/service/impl/CultivationServiceImpl.java:74-95 | as written, after any sequence of addExp calls the stored attack and defense exceed the plainly credited ones by one bonus per call, all other fields equal |
| CircuitBreaker.OperationsPreserveValid | exe-backend/src/main/java/com/ice/exebackend/service/AiCircuitBreaker.java:42-162 | allowRequest, recordSuccess, recordFailure and the transitions keep the breaker in a reachable state (CLOSED under ten failures, OPEN with zero counters and an opening time, HALF_OPEN under three successes) |
| CircuitBreaker.AllowRequestByState | exe-backend/src/main/java/com/ice/exebackend/service/AiCircuitBreaker.java:42-71 | CLOSED allows and changes nothing; OPEN allows exactly when five minutes have passed since opening and then becomes HALF_OPEN with zero counters, otherwise it refuses unchanged; HALF_OPEN allows iff failures + successes < 5 |
| CircuitBreaker.HalfOpenNeverRejects | exe-backend/src/main/java/com/ice/exebackend/service/AiCircuitBreaker.java:57-66 | in every reachable HALF_OPEN state the five-attempt limit is never reached, because allowed requests are not counted and a failure reopens at once |
| CircuitBreaker.ConsecutiveFailuresOpen | exe-backend/src/main/java/com/ice/exebackend/service/AiCircuitBreaker.java:105-116 | from CLOSED with k failures, fewer than 10 - k further failures only count up, and the (10 - k)-th opens the breaker at that instant with zero counters |
| CircuitBreaker.RecordOutcomeByState | exe-backend/src/main/java/com/ice/exebackend/service/AiCircuitBreaker.java:76-128 | a CLOSED success clears the failure count; in OPEN successes and failures change nothing; a HALF_OPEN failure reopens with zero counters |
| CircuitBreaker.HalfOpenSuccessesClose | exe-backend/src/main/java/com/ice/exebackend/service/AiCircuitBreaker.java:83-93 | a HALF_OPEN breaker closes exactly on its third success and only counts up before it |
| CircuitBreaker.TransitionsZeroCounters | exe-backend/src/main/java/com/ice/exebackend/service/AiCircuitBreaker.java:134-162 | whenever an operation changes the state, both counters are zero afterwards |
| CircuitBreaker.AiCircuitBreaker.constructor | exe-backend/src/main/java/com/ice/exebackend/service/AiCircuitBreaker.java:26-29 | a new breaker is CLOSED with zero counters and no opening time |
| CircuitBreaker.AiCircuitBreaker.TransitionToClosed | exe-backend/src/main/java/com/ice/exebackend/service/AiCircuitBreaker.java:134-140 | CLOSED, both counters zero, opening time cleared |
| CircuitBreaker.AiCircuitBreaker.TransitionToOpen | exe-backend/src/main/java/com/ice/exebackend/service/AiCircuitBreaker.java:145-152 | OPEN, opening time now, both counters zero |
| CircuitBreaker.AiCircuitBreaker.TransitionToHalfOpen | exe-backend/src/main/java/com/ice/exebackend/service/AiCircuitBreaker.java:157-162 | HALF_OPEN, both counters zero, opening time kept |
| CircuitBreaker.AiCircuitBreaker.AllowRequest | exe-backend/src/main/java/com/ice/exebackend/service/AiCircuitBreaker.java:42-71 | the answer and the new state are those of the allowRequest decision on the old state |
| CircuitBreaker.AiCircuitBreaker.RecordSuccess | exe-backend/src/main/java/com/ice/exebackend/service/AiCircuitBreaker.java:76-100 | the new state is the recordSuccess step of the old one |
| CircuitBreaker.AiCircuitBreaker.RecordFailure | exe-backend/src/main/java/com/ice/exebackend/service/AiCircuitBreaker.java:105-129 | the new state is the recordFailure step of the old one |
| CircuitBreaker.AiCircuitBreaker.Reset | exe-backend/src/main/java/com/ice/exebackend/service/AiCircuitBreaker.java:195-198 | the breaker returns to its initial CLOSED state |
| CircuitBreaker.AiCircuitBreaker.ForceOpen | exe-backend/src/main/java/com/ice/exebackend/service/AiCircuitBreaker.java:203-206 | the breaker is OPEN from now with zero counters |
| CircuitBreaker.Allow | exe-backend/src/main/java/com/ice/exebackend/service/AiCircuitBreaker.java:42-71 | no ensures of its own; AllowRequestByState states the decision per state, HalfOpenNeverRejects the HALF_OPEN limit, OperationsPreserveValid and TransitionsZeroCounters what the new state keeps |
| CircuitBreaker.AfterSuccess | exe-backend/src/main/java/com/ice/exebackend/service/AiCircuitBreaker.java:76-100 | no ensures of its own; RecordOutcomeByState and HalfOpenSuccessesClose state its effect, OperationsPreserveValid the invariant it keeps |
| CircuitBreaker.AfterFailure | exe-backend/src/main/java/com/ice/exebackend/service/AiCircuitBreaker.java:105-129 | no ensures of its own; RecordOutcomeByState and ConsecutiveFailuresOpen state its effect, OperationsPreserveValid the invariant it keeps |
| JsonExtract.ExtractJson | exe-backend/src/main/java/com/ice/exebackend/utils/AiHttpClient.java:165-201 | extractJson; its meaning is stated by BlankGivesEmptyObject (a null or blank reply gives "{}"), ExtractJsonIsSlice (otherwise the result is a contiguous slice of the trimmed, unfenced reply) and ExtractedSpanIsFixpoint (extracting an extracted span gives it back) |
| JsonExtract.Span | exe-backend/src/main/java/com/ice/exebackend/utils/AiHttpClient.java:189-190 | the span starts with the opening and ends with the closing delimiter and is exactly the text from the first opening to the last closing one |
| JsonExtract.BlankGivesEmptyObject | exe-backend/src/main/java/com/ice/exebackend/utils/AiHttpClient.java:166-167 | a reply made only of characters trim removes gives "{}" |
| JsonExtract.ExtractJsonIsSlice | exe-backend/src/main/java/com/ice/exebackend/utils/AiHttpClient.java:170-201 | for a non-blank reply the result is always a contiguous slice of the trimmed, unfenced text |
| JsonExtract.DelimitedIsOwnSpan | exe-backend/src/main/java/com/ice/exebackend/utils/AiHttpClient.java:170-191 | a text that already starts with '[' (or '{') and ends with ']' (or '}') is unchanged by trimming and unfencing and is its own span |
| JsonExtract.ArrayExtractsToItself | exe-backend/src/main/java/com/ice/exebackend/utils/AiHttpClient.java:186-191 | a JSON array text is extracted as itself |
| JsonExtract.ObjectExtractsToItself | exe-backend/src/main/java/com/ice/exebackend/utils/AiHttpClient.java:194-199 | an object text without an array span inside is extracted as itself |
| JsonExtract.ObjectSpanHasNoArray | exe-backend/src/main/java/com/ice/exebackend/utils/AiHttpClient.java:186-199 | when the text has no array span, neither has its object span |
| JsonExtract.ArraySpanIsFixpoint | exe-backend/src/main/java/com/ice/exebackend/utils/AiHttpClient.java:186-191 | extracting an extracted array span gives it back |
| JsonExtract.ObjectSpanIsFixpoint | exe-backend/src/main/java/com/ice/exebackend/utils/AiHttpClient.java:194-199 | extracting an extracted object span gives it back |
| JsonExtract.ExtractedSpanIsFixpoint | exe-backend/src/main/java/com/ice/exebackend/utils/AiHttpClient.java:165-201 | extraction is idempotent whenever the reply held an array or object span |
| KnowledgeExtraction.ChunkEnd | exe-backend/src/main/java/com/ice/exebackend/service/AiServiceV3.java:425-433 | the chunk end lies past the start, within chunkSize and the text; a cut before the text's end lies past the chunk's midpoint, and one short of chunkSize is at a newline |
| KnowledgeExtraction.ChunkEndIsLastBreak | exe-backend/src/main/java/com/ice/exebackend/service/AiServiceV3.java:428-433 | with text left over, the cut is the last newline up to the full chunk length, and a full-length cut means no newline past the midpoint |
| KnowledgeExtraction.ChunkEndReachesEnd | exe-backend/src/main/java/com/ice/exebackend/service/AiServiceV3.java:425-428 | a chunk reaches the text's end exactly when chunkSize characters would |
| KnowledgeExtraction.AsWrittenRepeatsLastChunk | exe-backend/src/main/java/com/ice/exebackend/service/AiServiceV3.java:424-437 | as written, the chunk reaching the end sets start to length - overlap, and from there the same chunk and the same start recur |
| KnowledgeExtraction.AsWrittenLoopNeverExits | exe-backend/src/main/java/com/ice/exebackend/service/AiServiceV3.java:424-437 | as written, with 0 < overlap <= chunkSize / 2 and a text at least overlap long, the loop condition holds after any number of iterations |
| KnowledgeExtraction.SplitTextIntoChunks | exe-backend/src/main/java/com/ice/exebackend/service/AiServiceV3.java:420-440 | corrected loop: the chunks rebuild the text exactly, each is non-empty and within chunkSize, and each begins with the last overlap characters of the one before |
| KnowledgeExtraction.Key | exe-backend/src/main/java/com/ice/exebackend/service/AiServiceV3.java:450-454 | a point has a dedup key exactly when its name is present and non-empty; the key is the lower-cased, trimmed name |
| KnowledgeExtraction.KeepFirst | exe-backend/src/main/java/com/ice/exebackend/service/AiServiceV3.java:445-462 | deduplication never lengthens the list |
| KnowledgeExtraction.Deduplicate | exe-backend/src/main/java/com/ice/exebackend/service/AiServiceV3.java:445-462 | the loop keeps exactly the first point with each normalised name, in order, dropping unnamed points |
| KnowledgeExtraction.KeepFirstKeys | exe-backend/src/main/java/com/ice/exebackend/service/AiServiceV3.java:449-458 | every kept point comes from the input, and the kept points have exactly the input's set of names |
| KnowledgeExtraction.KeepFirstDistinct | exe-backend/src/main/java/com/ice/exebackend/service/AiServiceV3.java:449-458 | kept points all have names and no two share a normalised name |
| KnowledgeExtraction.KeepFirstIdempotent | exe-backend/src/main/java/com/ice/exebackend/service/AiServiceV3.java:445-462 | deduplicating an already deduplicated list changes nothing |
| KnowledgeExtraction.CutTo | exe-backend/src/main/java/com/ice/exebackend/service/AiServiceV3.java:410-414 | subList(0, count) of an over-long list, the list itself otherwise; a negative count with an over-long list throws (None) |
| KnowledgeExtraction.ExtractChunked | exe-backend/src/main/java/com/ice/exebackend/service/AiServiceV3.java:364-415 | the chunks cover the text; every chunk but the last is asked max(1, count / chunks) points and the last the remainder; asking stops at a non-positive count; the result is the deduplicated collection cut to count |
| BattleTiers.TierTablesDistinct | exe-backend/src/main/java/com/ice/exebackend/service/BattleGameManager.java:46-66 | the ten tier constants are distinct, as are their ten display names, none of which is the unranked name |
| BattleTiers.TierRank | exe-backend/src/main/java/com/ice/exebackend/service/BattleGameManager.java:244-255 | the position of the computed tier is one of the ten positions of ORDERED_TIERS |
| BattleTiers.CalculateTier | exe-backend/src/main/java/com/ice/exebackend/service/BattleGameManager.java:244-255 | every points value maps to one of the ten tiers |
| BattleTiers.CalculateTierIndex | exe-backend/src/main/java/com/ice/exebackend/service/BattleGameManager.java:244-255 | the tier calculateTier returns sits at position TierRank(points) of ORDERED_TIERS |
| BattleTiers.TierByThresholds | exe-backend/src/main/java/com/ice/exebackend/service/BattleGameManager.java:245-253 | the tier lies above the i-th one exactly when the points reach the i-th threshold (100, 200, ..., 600, 800, 1000, 1200) |
| BattleTiers.CalculateTierMonotone | exe-backend/src/main/java/com/ice/exebackend/service/BattleGameManager.java:244-255 | more points never give a tier earlier in ORDERED_TIERS |
| BattleTiers.TierNameCN | exe-backend/src/main/java/com/ice/exebackend/service/BattleGameManager.java:257-271 | an unknown tier string, and only that, gets "未定级"; a known tier gets the display name at its own position |
| BattleTiers.TierNamesDistinct | exe-backend/src/main/java/com/ice/exebackend/service/BattleGameManager.java:257-270 | two different tiers have different display names |
| BattleTiers.BelowAt | exe-backend/src/main/java/com/ice/exebackend/service/BattleGameManager.java:276-278 | the downward loop appends min(range, index) tiers, the k-th being at position index - 1 - k |
| BattleTiers.AboveAt | exe-backend/src/main/java/com/ice/exebackend/service/BattleGameManager.java:279-281 | the upward loop appends min(range, size - 1 - index) tiers, the k-th being at position index + 1 + k |
| BattleTiers.AppendAdjacent | exe-backend/src/main/java/com/ice/exebackend/service/BattleGameManager.java:276-281 | the two loops append exactly the lower neighbours and then the higher neighbours found within range |
| BattleTiers.AddAdjacentTiers | exe-backend/src/main/java/com/ice/exebackend/service/BattleGameManager.java:273-282 | the list afterwards is the old list followed by the adjacent tiers of the current one |
| BattleTiers.AdjacentAt | exe-backend/src/main/java/com/ice/exebackend/service/BattleGameManager.java:276-281 | the k-th appended tier is the k-th nearest lower neighbour, or after those, the nearest higher ones in turn |
| BattleTiers.AdjacentTiersInRange | exe-backend/src/main/java/com/ice/exebackend/service/BattleGameManager.java:273-282 | every appended tier is known and its distance from the current tier is between 1 and range |
| BattleTiers.AdjacentContains | exe-backend/src/main/java/com/ice/exebackend/service/BattleGameManager.java:276-281 | every position within range of the tier other than its own is among those the loops append |
| BattleTiers.AdjacentTiersComplete | exe-backend/src/main/java/com/ice/exebackend/service/BattleGameManager.java:273-282 | every known tier within range of the current one, other than itself, is appended |
| BattleTiers.AdjacentTiersOrdered | exe-backend/src/main/java/com/ice/exebackend/service/BattleGameManager.java:276-281 | the lower neighbours come first in descending order, then the higher ones in ascending order |
| BattleTiers.UnknownTierAddsNothing | exe-backend/src/main/java/com/ice/exebackend/service/BattleGameManager.java:274-275 | a tier not in ORDERED_TIERS adds nothing |
| Battle.TimeBonus | exe-backend/src/main/java/com/ice/exebackend/service/BattleGameManager.java:541 | the time bonus is never negative and at most 10 for a non-negative time used |
| Battle.RoundScoring | exe-backend/src/main/java/com/ice/exebackend/service/BattleGameManager.java:538-556 | a correct answer raises the combo by one and scores at least 10 + min(2 * combo, 10), at most 30 within the round; a wrong answer resets the combo and scores 0 |
| Battle.FasterScoresMore | exe-backend/src/main/java/com/ice/exebackend/service/BattleGameManager.java:540-543 | answering sooner never scores less |
| Battle.UpdatedPoints | exe-backend/src/main/java/com/ice/exebackend/service/BattleGameManager.java:641-649 | the stored points (null read as 0) plus +20, +5 or -10, clamped at zero |
| Battle.GameOverOutcome | exe-backend/src/main/java/com/ice/exebackend/service/BattleGameManager.java:589-598 | the higher score wins (+20 against -10), equal scores draw (+5 each), the changes agree with the points deltas, and swapping the players swaps the settlement |
| Battle.FirstAnswerWins | exe-backend/src/main/java/com/ice/exebackend/service/BattleGameManager.java:715-729 | a recorded answer and its time survive later submissions, a first answer is stored with its time, one player's submission leaves the other's answer alone, and nothing else changes |
| Battle.ResubmitIgnored | exe-backend/src/main/java/com/ice/exebackend/service/BattleGameManager.java:715-729 | a second submission by the same session changes nothing |
| Battle.NextRoundClears | exe-backend/src/main/java/com/ice/exebackend/service/BattleGameManager.java:732-736 | the round index moves on by one, both answers are cleared, and scores and combos are kept |
| Battle.RoundResultScores | exe-backend/src/main/java/com/ice/exebackend/service/BattleGameManager.java:530-559 | scores never decrease; a player who did not answer correctly keeps the score and loses the combo; a correct one extends the combo |
| Battle.BattleRoom.constructor | exe-backend/src/main/java/com/ice/exebackend/service/BattleGameManager.java:686-712 | a new room is at the first round with no answers, no scores and no combos |
| Battle.BattleRoom.SubmitAnswer | exe-backend/src/main/java/com/ice/exebackend/service/BattleGameManager.java:715-729 | the new room is the Submit step of the old one |
| Battle.BattleRoom.SetBotAnswer | exe-backend/src/main/java/com/ice/exebackend/service/BattleGameManager.java:468-505 | the bot's answer and its time are written for the second player and nothing else changes |
| Battle.BattleRoom.StartRoundTimer | exe-backend/src/main/java/com/ice/exebackend/service/BattleGameManager.java:516-520 | only the round start time changes, to now |
| Battle.BattleRoom.NextRound | exe-backend/src/main/java/com/ice/exebackend/service/BattleGameManager.java:732-736 | the new room is the Advance step of the old one |
| Battle.BattleRoom.SendRoundResult | exe-backend/src/main/java/com/ice/exebackend/service/BattleGameManager.java:530-559 | the new room is the RoundResult scoring of the old one |
| Battle.ScoreRound | exe-backend/src/main/java/com/ice/exebackend/service/BattleGameManager.java:538-556 | no ensures of its own; RoundScoring and FasterScoresMore state its scoring |
| Battle.GameOver | exe-backend/src/main/java/com/ice/exebackend/service/BattleGameManager.java:589-598 | no ensures of its own; GameOverOutcome states the settlement |
| Battle.Submit | exe-backend/src/main/java/com/ice/exebackend/service/BattleGameManager.java:715-729 | no ensures of its own; FirstAnswerWins and ResubmitIgnored state its effect |
| Battle.RoundResult | exe-backend/src/main/java/com/ice/exebackend/service/BattleGameManager.java:530-559 | no ensures of its own; RoundResultScores states its effect on scores and combos |
| GradingApproval.PercentHundredths | exe-backend/src/main/java/com/ice/exebackend/service/impl/BizGradingApprovalServiceImpl.java:86-88 | the percentage in hundredths is change * 100 / base rounded half-up to two decimals, bounded on both sides |
| GradingApproval.PercentReaches | exe-backend/src/main/java/com/ice/exebackend/service/impl/BizGradingApprovalServiceImpl.java:86-90 | the rounded percentage reaches t percent exactly when the exact one reaches t - 0.005 percent |
| GradingApproval.NeedsApprovalExactly | exe-backend/src/main/java/com/ice/exebackend/service/impl/BizGradingApprovalServiceImpl.java:64-96 | no approval when disabled or a score is null; otherwise approval exactly when the change reaches the point threshold or, for a non-zero old score, the rounded percentage reaches the percentage threshold |
| GradingApproval.NeedsApprovalMonotone | exe-backend/src/main/java/com/ice/exebackend/service/impl/BizGradingApprovalServiceImpl.java:77-93 | a larger change from the same old score never needs approval less |
| GradingApproval.NewApproval | exe-backend/src/main/java/com/ice/exebackend/service/impl/BizGradingApprovalServiceImpl.java:98-137 | the record is PENDING, refers to the exam result, holds old and new score, a score change that adds back to the new score, a percentage exactly when the old score is present and non-zero, and no approver |
| GradingApproval.RecordedPercentageAgrees | exe-backend/src/main/java/com/ice/exebackend/service/impl/BizGradingApprovalServiceImpl.java:85-93 | below the point threshold, the recorded percentage reaches the threshold exactly when needsApproval says approval is needed |
| GradingApproval.ApproveOnlyPending | exe-backend/src/main/java/com/ice/exebackend/service/impl/BizGradingApprovalServiceImpl.java:153-189 | approve succeeds exactly on an existing PENDING approval and otherwise changes nothing; on success only that approval becomes APPROVED with the approver, and only its exam result gets the new score |
| GradingApproval.RejectOnlyPending | exe-backend/src/main/java/com/ice/exebackend/service/impl/BizGradingApprovalServiceImpl.java:191-217 | reject succeeds exactly on an existing PENDING approval, makes only it REJECTED, and never touches an exam result |
| GradingApproval.DecidedOnce | exe-backend/src/main/java/com/ice/exebackend/service/impl/BizGradingApprovalServiceImpl.java:162-165 | after an approval or a rejection, neither approve nor reject succeeds again on the same approval |
| GradingApproval.Statistics | exe-backend/src/main/java/com/ice/exebackend/service/impl/BizGradingApprovalServiceImpl.java:224-242 | the statistics always hold PENDING, APPROVED, REJECTED and TOTAL |
| GradingApproval.StatusStatistics | exe-backend/src/main/java/com/ice/exebackend/service/impl/BizGradingApprovalServiceImpl.java:224-242 | the method computes the statistics of the query rows: the three statuses from zero, each row put in order, then TOTAL |
| GradingApproval.StatisticsTotal | exe-backend/src/main/java/com/ice/exebackend/service/impl/BizGradingApprovalServiceImpl.java:239 | TOTAL is the sum of the three status entries whatever rows the query returns |
| GradingApproval.CountsPartition | exe-backend/src/main/java/com/ice/exebackend/service/impl/BizGradingApprovalServiceImpl.java:239 | the counts of the three statuses add up to the number of approvals |
| GradingApproval.StatisticsOfCounts | exe-backend/src/main/java/com/ice/exebackend/service/impl/BizGradingApprovalServiceImpl.java:224-242 | on the rows of the count-by-status query, each status entry is the number of approvals with that status and TOTAL is the number of approvals |
| GradingApproval.GradingApprovalService.constructor | exe-backend/src/main/java/com/ice/exebackend/service/impl/BizGradingApprovalServiceImpl.java:61-62 | a service starts with the given configuration, no approvals and the given exam results |
| GradingApproval.GradingApprovalService.CreateApproval | exe-backend/src/main/java/com/ice/exebackend/service/impl/BizGradingApprovalServiceImpl.java:98-145 | the service stores the new PENDING record under a fresh id and leaves exam results alone |
| GradingApproval.GradingApprovalService.Approve | exe-backend/src/main/java/com/ice/exebackend/service/impl/BizGradingApprovalServiceImpl.java:153-189 | the result and the new tables are those of the approve step |
| GradingApproval.GradingApprovalService.Reject | exe-backend/src/main/java/com/ice/exebackend/service/impl/BizGradingApprovalServiceImpl.java:191-217 | the result and the new tables are those of the reject step |
| GradingApproval.NeedsApproval | exe-backend/src/main/java/com/ice/exebackend/service/impl/BizGradingApprovalServiceImpl.java:64-96 | no ensures of its own; NeedsApprovalExactly states when approval is needed, NeedsApprovalMonotone that a larger change never needs it less |
| GradingApproval.ApplyApproval | exe-backend/src/main/java/com/ice/exebackend/service/impl/BizGradingApprovalServiceImpl.java:153-189 | no ensures of its own; ApproveOnlyPending and DecidedOnce state its effect |
| GradingApproval.ApplyRejection | exe-backend/src/main/java/com/ice/exebackend/service/impl/BizGradingApprovalServiceImpl.java:191-217 | no ensures of its own; RejectOnlyPending and DecidedOnce state its effect |
| ExamStats.MaxOf | exe-backend/src/main/java/com/ice/exebackend/service/impl/BizExamResultServiceImpl.java:166-169 | the highest score is one of the scores and bounds all of them from above |
| ExamStats.MinOf | exe-backend/src/main/java/com/ice/exebackend/service/impl/BizExamResultServiceImpl.java:166-170 | the lowest score is one of the scores and bounds all of them from below |
| ExamStats.EmptyStats | exe-backend/src/main/java/com/ice/exebackend/service/impl/BizExamResultServiceImpl.java:141-152 | no results give all-zero statistics and an empty distribution |
| ExamStats.ScoreStatsConsistent | exe-backend/src/main/java/com/ice/exebackend/service/impl/BizExamResultServiceImpl.java:154-193 | the five bands partition the results, excellent results are among the passing ones, the pass count is the total less the lowest band, and the extremes are scores of the list |
| ExamStats.AverageBetweenExtremes | exe-backend/src/main/java/com/ice/exebackend/service/impl/BizExamResultServiceImpl.java:159-170 | the exact average lies between the lowest and the highest score |
| ExamStats.RatesArePercentages | exe-backend/src/main/java/com/ice/exebackend/service/impl/BizExamResultServiceImpl.java:172-184 | the rounded rates satisfy 0 <= excellent rate <= pass rate <= 100 |
| ExamStats.Round2Monotone | exe-backend/src/main/java/com/ice/exebackend/service/impl/BizExamResultServiceImpl.java:163 | rounding to two decimals preserves order |
| ExamStats.AddQuestionLinks | exe-backend/src/main/java/com/ice/exebackend/service/impl/BizExamResultServiceImpl.java:442-463 | the inner loop adds one question's links as the link-by-link accumulation does |
| ExamStats.AggregateScores | exe-backend/src/main/java/com/ice/exebackend/service/impl/BizExamResultServiceImpl.java:431-464 | the accumulation loop computes the totals of the question-by-question accumulation |
| ExamStats.AggregateIsLinkSums | exe-backend/src/main/java/com/ice/exebackend/service/impl/BizExamResultServiceImpl.java:431-464 | the totals hold exactly the points linked to some question; a point's count is its number of links, its maximum the sum of its linked questions' scores, and its score that sum over questions not answered wrongly |
| ExamStats.ScoreAtMostMax | exe-backend/src/main/java/com/ice/exebackend/service/impl/BizExamResultServiceImpl.java:455-462 | with non-negative question scores, a point's earned score is between 0 and its maximum and it has at least one question |
| ExamStats.HalfUpHundredths | exe-backend/src/main/java/com/ice/exebackend/service/impl/BizExamResultServiceImpl.java:477 | the value in hundredths is within half a unit of x * 100, ties away from zero |
| ExamStats.ScoreRateIsPercentage | exe-backend/src/main/java/com/ice/exebackend/service/impl/BizExamResultServiceImpl.java:475-480 | with the earned score between 0 and the maximum, the rate is between 0 and 100 percent |
| ExamStats.KnowledgePointAnalysis | exe-backend/src/main/java/com/ice/exebackend/service/impl/BizExamResultServiceImpl.java:403-486 | nothing for a missing result or a paper without questions; otherwise an exception exactly when a question with a linked point has a null score or a point of the totals is stored with a null name, and else one entry per point of the totals, with its stored name if any, its totals and its rounded rate |
| ExamStats.GetScoreStats | exe-backend/src/main/java/com/ice/exebackend/service/impl/BizExamResultServiceImpl.java:141-193 | no ensures of its own; EmptyStats, ScoreStatsConsistent, AverageBetweenExtremes and RatesArePercentages state its contract, ScoreStatsOf its exception on a null score |
| ExamStats.ScoreStatsOf | exe-backend/src/main/java/com/ice/exebackend/service/impl/BizExamResultServiceImpl.java:154-162 | no statistics (an exception) exactly when some selected result has a null score; otherwise the statistics of the scores, counting every result |
| ExamStats.UnlinkedAddsNothing | exe-backend/src/main/java/com/ice/exebackend/service/impl/BizExamResultServiceImpl.java:431-463 | a question with no linked point adds nothing to the totals, so its score is never unboxed |
| ExamStats.NullNameListed | exe-backend/src/main/java/com/ice/exebackend/service/impl/BizExamResultServiceImpl.java:467-470 | no ensures of its own; the KnowledgePointAnalysis contract uses it for the name lookup's exception |
| WrongRecordReview.CorrectReviewClimbs | exe-backend/src/main/java/com/ice/exebackend/service/impl/BizWrongRecordServiceImpl.java:157-169 | a correct review at count c below 4 reports the c-th interval, counts one more review and schedules the next review that many days from now |
| WrongRecordReview.CorrectReviewMasters | exe-backend/src/main/java/com/ice/exebackend/service/impl/BizWrongRecordServiceImpl.java:162-164 | a correct review at count 4 or more masters the record and reports 999 days, leaving the count and the schedule unchanged |
| WrongRecordReview.WrongReviewResets | exe-backend/src/main/java/com/ice/exebackend/service/impl/BizWrongRecordServiceImpl.java:170-175 | a wrong review resets the count to 0, schedules tomorrow, reports 1 day and leaves the mastered flag unchanged |
| WrongRecordReview.ReviewKeepsLadder | exe-backend/src/main/java/com/ice/exebackend/service/impl/BizWrongRecordServiceImpl.java:157-175 | a record whose count is within [0, 4] never raises and keeps its count within [0, 4] |
| WrongRecordReview.ThirtyDaysNeverScheduled | exe-backend/src/main/java/com/ice/exebackend/service/impl/BizWrongRecordServiceImpl.java:33 | a review reports 1, 3, 7, 15 or 999 days, so the 30-day interval is never scheduled and no review lands more than 15 days ahead |
| WrongRecordReview.FiveCorrectReviewsMaster | exe-backend/src/main/java/com/ice/exebackend/service/impl/BizWrongRecordServiceImpl.java:157-169 | five correct reviews in a row master a fresh record, and the last schedule is 15 days after the fourth review |
| WrongRecordReview.CountOpen | exe-backend/src/main/java/com/ice/exebackend/service/impl/BizWrongRecordServiceImpl.java:42-46 | the count is positive exactly when the student has an unmastered record of the question |
| WrongRecordReview.AddStudentsExtends | exe-backend/src/main/java/com/ice/exebackend/service/impl/BizWrongRecordServiceImpl.java:40-63 | creation keeps the existing rows unchanged and only appends |
| WrongRecordReview.AddStudentsKeeps | exe-backend/src/main/java/com/ice/exebackend/service/impl/BizWrongRecordServiceImpl.java:40-63 | creation keeps ids distinct and below the next id, and keeps at most one unmastered record per student and question |
| WrongRecordReview.AddStudentsCovers | exe-backend/src/main/java/com/ice/exebackend/service/impl/BizWrongRecordServiceImpl.java:40-63 | after creation every listed student has an unmastered record of the question |
| WrongRecordReview.AddStudentsAddsFresh | exe-backend/src/main/java/com/ice/exebackend/service/impl/BizWrongRecordServiceImpl.java:50-62 | every added row belongs to a listed student and is a new record of the request: count 0, not mastered, due one day after now |
| WrongRecordReview.AddStudentCovers | exe-backend/src/main/java/com/ice/exebackend/service/impl/BizWrongRecordServiceImpl.java:42-62 | one student gets at most one appended record, and then has an unmastered record of the question |
| WrongRecordReview.AddStudentEffect | exe-backend/src/main/java/com/ice/exebackend/service/impl/BizWrongRecordServiceImpl.java:42-62 | one student's step appends at most one new record and keeps ids well keyed and open records unique |
| WrongRecordReview.OpenSurvivesPrefix | exe-backend/src/main/java/com/ice/exebackend/service/impl/BizWrongRecordServiceImpl.java:42-48 | an unmastered record stays visible to the count query when rows are appended |
| WrongRecordReview.Due | exe-backend/src/main/java/com/ice/exebackend/service/impl/BizWrongRecordServiceImpl.java:104-107 | a record is in the due list exactly when it is a stored unmastered record of the student whose next review time is at or before now |
| WrongRecordReview.Items | exe-backend/src/main/java/com/ice/exebackend/service/impl/BizWrongRecordServiceImpl.java:114-141 | there are at most as many items as records |
| WrongRecordReview.ItemsShowRecords | exe-backend/src/main/java/com/ice/exebackend/service/impl/BizWrongRecordServiceImpl.java:119-140 | every item shows one of the records with its question |
| WrongRecordReview.ItemsShowEveryKnown | exe-backend/src/main/java/com/ice/exebackend/service/impl/BizWrongRecordServiceImpl.java:119-140 | every record whose question is found is shown |
| WrongRecordReview.DueSortedIsOrderedDue | exe-backend/src/main/java/com/ice/exebackend/service/impl/BizWrongRecordServiceImpl.java:104-109 | the due list is in non-increasing next-review order and is a permutation of the due records |
| WrongRecordReview.FindById | exe-backend/src/main/java/com/ice/exebackend/service/impl/BizWrongRecordServiceImpl.java:153-154 | the index is that of a record with the id, or -1 when no record has it |
| WrongRecordReview.SubmitReviewTouchesOneRecord | exe-backend/src/main/java/com/ice/exebackend/service/impl/BizWrongRecordServiceImpl.java:152-179 | a missing record reports 0 days and changes nothing; otherwise only the record with that id changes, ids stay and stay distinct |
| WrongRecordReview.WrongRecordService.constructor | exe-backend/src/main/java/com/ice/exebackend/service/impl/BizWrongRecordServiceImpl.java:26 | a new service has no records and next id 1 |
| WrongRecordReview.WrongRecordService.CreateWrongRecord | exe-backend/src/main/java/com/ice/exebackend/service/impl/BizWrongRecordServiceImpl.java:36-65 | false, with nothing changed, exactly for a null question, a null or empty student list; otherwise the table becomes the one-by-one creation for the listed students |
| WrongRecordReview.WrongRecordService.SubmitReviewResult | exe-backend/src/main/java/com/ice/exebackend/service/impl/BizWrongRecordServiceImpl.java:152-179 | the new rows and the reported days are those of the review step |
| WrongRecordReview.WrongRecordService.DailyReviewRecords | exe-backend/src/main/java/com/ice/exebackend/service/impl/BizWrongRecordServiceImpl.java:102-143 | the list is the sorted due records with a known question, as review items, in order |
| WrongRecordReview.ReviewRecord | exe-backend/src/main/java/com/ice/exebackend/service/impl/BizWrongRecordServiceImpl.java:157-175 | no ensures of its own; CorrectReviewClimbs, CorrectReviewMasters, WrongReviewResets, ReviewKeepsLadder and ThirtyDaysNeverScheduled state one review |
| WrongRecordReview.SubmitReview | exe-backend/src/main/java/com/ice/exebackend/service/impl/BizWrongRecordServiceImpl.java:152-179 | no ensures of its own; SubmitReviewTouchesOneRecord states its effect |
| WrongRecordReview.AddStudents | exe-backend/src/main/java/com/ice/exebackend/service/impl/BizWrongRecordServiceImpl.java:40-63 | no ensures of its own; AddStudentsExtends, AddStudentsKeeps, AddStudentsCovers and AddStudentsAddsFresh state the creation |
| WrongRecordReview.DueSorted | exe-backend/src/main/java/com/ice/exebackend/service/impl/BizWrongRecordServiceImpl.java:104-109 | no ensures of its own; DueSortedIsOrderedDue states that it lists the due records, reordered, by non-increasing next review time |
| PracticeStore.FirstWithComma | exe-frontend/src/stores/practiceStore.ts:295 | the template is an alternative containing a comma, and there is none exactly when no alternative contains one |
| PracticeStore.MultipleIgnoresOrder | exe-frontend/src/stores/practiceStore.ts:277-280 | two choice lists holding the same options, however arranged, get the same verdict |
| PracticeStore.MultipleReferenceAccepted | exe-frontend/src/stores/practiceStore.ts:277-280 | when the reference answer is the sorted options joined with commas, every arrangement of those options is accepted |
| PracticeStore.JsTrimEnds | exe-frontend/src/stores/practiceStore.ts:285 | a trimmed text neither starts nor ends with a blank |
| PracticeStore.NormalFormFixed | exe-frontend/src/stores/practiceStore.ts:285 | a normalised trimmed text is left alone by trimming, lower-casing and comma replacement |
| PracticeStore.NormalizeIdempotent | exe-frontend/src/stores/practiceStore.ts:285 | normalising a normalised answer changes nothing |
| PracticeStore.SingleVerdictOfNormalForm | exe-frontend/src/stores/practiceStore.ts:284-333 | surrounding blanks, letter case and full-width commas do not change a text answer's verdict |
| PracticeStore.SingleReferenceAccepted | exe-frontend/src/stores/practiceStore.ts:287-290 | without '###', the stored reference answer itself is accepted |
| PracticeStore.AlternativeAccepted | exe-frontend/src/stores/practiceStore.ts:292-333 | with '###', an answer equal to one alternative is accepted when there is no template or the answer has no comma |
| PracticeStore.PossibleIncludes | exe-frontend/src/stores/practiceStore.ts:312-325 | a non-empty field of an alternative with commas is among the accepted values of its blank |
| PracticeStore.FilledAlternativeAccepted | exe-frontend/src/stores/practiceStore.ts:297-329 | under the multi-blank rule too, an alternative typed as is, with all its fields non-empty, is accepted |
| PracticeStore.PerformanceScore | exe-frontend/src/stores/practiceStore.ts:400-409 | the performance score lies in [0, 1.2] |
| PracticeStore.PerformanceScoreCases | exe-frontend/src/stores/practiceStore.ts:400-409 | 0 for a wrong answer; 1.2 under 30 s, 0.9 over 120 s and 1 otherwise for a right one |
| PracticeStore.SumBounds | exe-frontend/src/stores/practiceStore.ts:418-419 | the sum of scores in [0, 1.2] lies between 0 and 1.2 times their number |
| PracticeStore.MeanBounds | exe-frontend/src/stores/practiceStore.ts:418-419 | the average of the recent scores lies in [0, 1.2] |
| PracticeStore.AdaptKeepsBounds | exe-frontend/src/stores/practiceStore.ts:398-443 | the level stays in [1, 5] with at most ten recent scores, moves by at most 0.5, rises only on an average above 0.8 and falls only on one below 0.4, and the history mirrors the state |
| PracticeStore.AdjustmentLoggedIffChanged | exe-frontend/src/stores/practiceStore.ts:430-439 | an adjustment is appended exactly when the level changed, recording old and new level, the time, and the raise reason exactly when the level rose |
| PracticeStore.XpGainBounds | exe-frontend/src/stores/practiceStore.ts:448-466 | no experience for a wrong answer; a right one earns between 10 + 5 * difficulty and 40 + 5 * difficulty, and the streak bonus stops growing at 10 |
| PracticeStore.XpGainMonotone | exe-frontend/src/stores/practiceStore.ts:448-466 | a longer streak or a faster answer never earns less |
| PracticeStore.UserLevelBand | exe-frontend/src/stores/practiceStore.ts:167-169 | the level is the thousand-point band the experience lies in, at least 1 for non-negative experience |
| PracticeStore.NavigationKeepsIndex | exe-frontend/src/stores/practiceStore.ts:340-362 | navigation keeps the index on a question, moves it by at most one step for next and previous, and jumps to any valid target |
| PracticeStore.UnlockIdempotent | exe-frontend/src/stores/practiceStore.ts:487-501 | after an unlock the achievement is held, the reward is granted only if it was not held, and a second unlock changes nothing |
| PracticeStore.FindQuestion | exe-frontend/src/stores/practiceStore.ts:222 | the result is a question with that id, or none when no question has it |
| PracticeStore.RecordUnfolds | exe-frontend/src/stores/practiceStore.ts:226-265 | recording an answer stores it, updates the difficulty, sets the streak and adds the gain to the total and the session |
| PracticeStore.SubmitUnknownQuestion | exe-frontend/src/stores/practiceStore.ts:222-223 | an answer to a question not in the practice changes nothing |
| PracticeStore.SessionCounts | exe-frontend/src/stores/practiceStore.ts:241-265 | the session, if any, counts one more right or wrong answer and the gain, and its best streak covers a right answer's streak |
| PracticeStore.SubmitSavesAnswer | exe-frontend/src/stores/practiceStore.ts:226-238 | the answer is stored under the question's id with checkAnswer's verdict, and no other answer changes |
| PracticeStore.SubmitCounts | exe-frontend/src/stores/practiceStore.ts:241-265 | a right answer extends the streak and a wrong one resets it; the total grows by the gain for the new streak, and the session counts the verdict and the gain |
| PracticeStore.SubmitKeeps | exe-frontend/src/stores/practiceStore.ts:221-269 | submitting leaves the questions, the position and the achievements unchanged |
| PracticeStore.PracticeStoreState.constructor | exe-frontend/src/stores/practiceStore.ts:47-74 | the store starts with no questions, no answers, difficulty 3 with an empty history, no achievements, zero streak and experience, and no session |
| PracticeStore.PracticeStoreState.StartPractice | exe-frontend/src/stores/practiceStore.ts:187-212 | a fresh session over the questions at the first question, with no answers; nothing else changes |
| PracticeStore.PracticeStoreState.UpdateAdaptiveDifficulty | exe-frontend/src/stores/practiceStore.ts:398-443 | only the difficulty state changes, to the update of the old one |
| PracticeStore.PracticeStoreState.SubmitAnswer | exe-frontend/src/stores/practiceStore.ts:221-269 | the new state is the submit step of the old one |
| PracticeStore.PracticeStoreState.SaveAnswer | exe-frontend/src/stores/practiceStore.ts:229-238 | only the answer under the question's id changes |
| PracticeStore.PracticeStoreState.CountStats | exe-frontend/src/stores/practiceStore.ts:241-255 | the streak is extended or reset by the verdict and the session counts it; nothing else changes |
| PracticeStore.PracticeStoreState.GainXp | exe-frontend/src/stores/practiceStore.ts:261-265 | the gain is added to the total and the session; nothing else changes |
| PracticeStore.PracticeStoreState.NextQuestion | exe-frontend/src/stores/practiceStore.ts:340-344 | the index moves on unless at the last question; nothing else changes |
| PracticeStore.PracticeStoreState.PreviousQuestion | exe-frontend/src/stores/practiceStore.ts:349-353 | the index moves back unless at the first question; nothing else changes |
| PracticeStore.PracticeStoreState.GoToQuestion | exe-frontend/src/stores/practiceStore.ts:358-362 | the index jumps to a valid target and stays otherwise; nothing else changes |
| PracticeStore.PracticeStoreState.UnlockAchievement | exe-frontend/src/stores/practiceStore.ts:487-501 | achievements and experience become those of the unlock step; nothing else changes |
| PracticeStore.CheckAnswer | exe-frontend/src/stores/practiceStore.ts:274-333 | no ensures of its own; its verdicts are stated by MultipleIgnoresOrder and MultipleReferenceAccepted (multiple choice), SingleVerdictOfNormalForm and SingleReferenceAccepted (one answer), AlternativeAccepted and FilledAlternativeAccepted ('###' alternatives and templates) |
| PracticeStore.Adapt | exe-frontend/src/stores/practiceStore.ts:398-443 | no ensures of its own; AdaptKeepsBounds states that the state stays valid, the level moves by at most half a step, up only when the mean performance exceeds 0.8 and down only below 0.4, and the latest performance is logged; AdjustmentLoggedIffChanged states that an adjustment is logged exactly when the level changes |
| PracticeStore.XpGain | exe-frontend/src/stores/practiceStore.ts:448-466 | no ensures of its own; XpGainBounds states 0 for a wrong answer, between 10 + 5 * difficulty and 40 + 5 * difficulty for a right one, and no gain from a streak beyond 10; XpGainMonotone that answering sooner or on a longer streak never gains less |
| PracticeStore.Submit | exe-frontend/src/stores/practiceStore.ts:221-269 | no ensures of its own; SubmitUnknownQuestion, SubmitSavesAnswer, SubmitCounts and SubmitKeeps state the unknown-question case, the saved verdict, the session counters and what stays unchanged |
| PracticeStore.Unlock | exe-frontend/src/stores/practiceStore.ts:487-501 | no ensures of its own; UnlockIdempotent states that the achievement is held afterwards, a second unlock changes nothing, and its XP is paid only the first time |
| AchievementSystem.FloorDivIsDiv | exe-frontend/src/utils/achievementSystem.ts:559 | the repeated-subtraction quotient is the floor of the exact quotient |
| AchievementSystem.ExpForNextLevelAtLeast100 | exe-frontend/src/utils/achievementSystem.ts:558-560 | the experience a level needs is never below 100 |
| AchievementSystem.ExpForNextLevelGrows | exe-frontend/src/utils/achievementSystem.ts:558-560 | each level needs at least half as much again (rounded down) as the one before |
| AchievementSystem.TitleByLevel | exe-frontend/src/utils/achievementSystem.ts:565-579 | below level 40 the title is the one of the level's band of five, from level 35 on it is the last title, and below 5 the first |
| AchievementSystem.PerkCount | exe-frontend/src/utils/achievementSystem.ts:584-595 | at most six perks |
| AchievementSystem.PerksReached | exe-frontend/src/utils/achievementSystem.ts:584-595 | the perks of a level are exactly the listed perks whose level it has reached, in their order |
| AchievementSystem.PerksMonotone | exe-frontend/src/utils/achievementSystem.ts:584-595 | a higher level keeps every perk of a lower one, in the same order |
| AchievementSystem.Settle | exe-frontend/src/utils/achievementSystem.ts:539-541 | settling keeps the record consistent and the total, never lowers the level, and ends below the threshold |
| AchievementSystem.LevelUpValid | exe-frontend/src/utils/achievementSystem.ts:547-553 | a level-up the experience reaches raises the level by one, uses up at least 100 experience, keeps the total and gives a consistent record |
| AchievementSystem.LevelUpStep | exe-frontend/src/utils/achievementSystem.ts:539-553 | one level-up lowers the current experience and does not change where settling ends |
| AchievementSystem.LevelUpAccounted | exe-frontend/src/utils/achievementSystem.ts:547-553 | a level-up keeps the total equal to the experience of the passed levels plus the current experience |
| AchievementSystem.Settled | exe-frontend/src/utils/achievementSystem.ts:539 | a record below its threshold is left as it is |
| AchievementSystem.CumulativeStep | exe-frontend/src/utils/achievementSystem.ts:550 | the experience to reach the next level adds the current level's threshold |
| AchievementSystem.CreditValid | exe-frontend/src/utils/achievementSystem.ts:535-536 | crediting experience leaves level, threshold, title and perks consistent and keeps the total accounted for |
| AchievementSystem.GainExpEffect | exe-frontend/src/utils/achievementSystem.ts:534-542 | after addExp the record is consistent and below its threshold, the total grew by exactly the gain, and the level did not fall |
| AchievementSystem.SettleAccounted | exe-frontend/src/utils/achievementSystem.ts:539-541 | settling keeps the total accounted for by the levels passed |
| AchievementSystem.GainExpAccounted | exe-frontend/src/utils/achievementSystem.ts:534-542 | addExp keeps the total accounted for by the levels passed |
| AchievementSystem.LevelOfTotal | exe-frontend/src/utils/achievementSystem.ts:534-553 | with no negative experience, the level is the one whose cumulative range holds the total |
| AchievementSystem.GainAll | exe-frontend/src/utils/achievementSystem.ts:483 | gains in order keep the record consistent |
| AchievementSystem.GainAllEffect | exe-frontend/src/utils/achievementSystem.ts:483 | a sequence of gains adds their sum to the total and keeps it accounted for |
| AchievementSystem.GainAllOne | exe-frontend/src/utils/achievementSystem.ts:483 | one gain is addExp |
| AchievementSystem.GainAllAppend | exe-frontend/src/utils/achievementSystem.ts:483 | gaining two lists in turn is gaining their concatenation |
| AchievementSystem.ProgressBounds | exe-frontend/src/utils/achievementSystem.ts:474-477 | progress is at most 100, non-negative for a non-negative statistic, and 100 exactly when the target is reached |
| AchievementSystem.CheckOneEffect | exe-frontend/src/utils/achievementSystem.ts:440-480 | an unlocked achievement is left alone; a locked one records the statistic and its progress and unlocks, at now, exactly when the target is reached |
| AchievementSystem.CheckOneIdempotent | exe-frontend/src/utils/achievementSystem.ts:440-480 | checking again with the same statistics changes nothing and unlocks nothing |
| AchievementSystem.SameRewards | exe-frontend/src/utils/achievementSystem.ts:485-510 | the points reward and the badge depend only on what an achievement is, not on its state |
| AchievementSystem.Outcome | exe-frontend/src/utils/achievementSystem.ts:440-510 | the contribution holds the achievement as checked |
| AchievementSystem.CheckAllLast | exe-frontend/src/utils/achievementSystem.ts:439-512 | checking a longer list is checking its prefix followed by the last achievement's contribution |
| AchievementSystem.CheckAllEach | exe-frontend/src/utils/achievementSystem.ts:439-512 | every achievement is checked in place |
| AchievementSystem.CheckAllUnlocked | exe-frontend/src/utils/achievementSystem.ts:477-480 | the unlock list gains, in order, the ids of exactly the locked achievements whose target is reached |
| AchievementSystem.CheckAllExp | exe-frontend/src/utils/achievementSystem.ts:483 | the experience gains are, in order, the points of exactly the achievements unlocked |
| AchievementSystem.CheckAllBadges | exe-frontend/src/utils/achievementSystem.ts:493-503 | one badge for each unlocked legendary achievement, in order |
| AchievementSystem.CheckAllRewardCount | exe-frontend/src/utils/achievementSystem.ts:485-510 | one points reward per unlock and one badge reward per badge |
| AchievementSystem.LegendaryOnesAreLegendary | exe-frontend/src/utils/achievementSystem.ts:493 | only legendary achievements earn badges |
| AchievementSystem.FreshAreUnlocked | exe-frontend/src/utils/achievementSystem.ts:440-477 | a check unlocks only locked achievements whose target is reached |
| AchievementSystem.CheckAllIdempotent | exe-frontend/src/utils/achievementSystem.ts:439-512 | a second check with the same statistics unlocks nothing and changes no achievement |
| AchievementSystem.NoneFresh | exe-frontend/src/utils/achievementSystem.ts:477 | when no achievement's target is reached, nothing unlocks |
| AchievementSystem.ResetEffect | exe-frontend/src/utils/achievementSystem.ts:719-737 | after clearing an achievement is locked, without progress or unlock time, and keeps what it asks for |
| AchievementSystem.ResetKeepsTargets | exe-frontend/src/utils/achievementSystem.ts:719-737 | clearing keeps every target positive |
| AchievementSystem.InitialAchievements | exe-frontend/src/utils/achievementSystem.ts:100-421 | the built-in list holds 25 achievements |
| AchievementSystem.InitialAchievementsWellFormed | exe-frontend/src/utils/achievementSystem.ts:100-421 | every built-in achievement has a positive target and starts locked without progress |
| AchievementSystem.StartConsistent | exe-frontend/src/utils/achievementSystem.ts:82-89 | the initial level record is consistent and accounted for with any list of positive targets |
| AchievementSystem.AchievementTracker.constructor | exe-frontend/src/utils/achievementSystem.ts:70-95 | a tracker starts with the built-in achievements, zero statistics, level 1 with 100 to go, and no badges or unlocks |
| AchievementSystem.AchievementTracker.LevelUp | exe-frontend/src/utils/achievementSystem.ts:547-553 | the level record becomes the level-up of the old one |
| AchievementSystem.AchievementTracker.AddExp | exe-frontend/src/utils/achievementSystem.ts:534-542 | the level record becomes addExp of the old one |
| AchievementSystem.AchievementTracker.CheckAchievements | exe-frontend/src/utils/achievementSystem.ts:436-515 | achievements, rewards, unlock list, badges and level become those of checking the old achievements |
| AchievementSystem.AchievementTracker.CheckAt | exe-frontend/src/utils/achievementSystem.ts:440-511 | one achievement is checked in place and its contribution is appended and gained |
| AchievementSystem.AchievementTracker.UpdateStats | exe-frontend/src/utils/achievementSystem.ts:427-431 | the statistics are merged, then the achievements are checked against them, keeping the tracker consistent |
| AchievementSystem.AchievementTracker.Clear | exe-frontend/src/utils/achievementSystem.ts:719-737 | statistics, level, badges and unlock list start over and every achievement is reset in place |
| AchievementSystem.AchievementTracker.ResetAchievements | exe-frontend/src/utils/achievementSystem.ts:719-737 | every achievement is reset in place |
| AchievementSystem.ExpForNextLevel | exe-frontend/src/utils/achievementSystem.ts:558-560 | no ensures of its own; ExpForNextLevelAtLeast100 and ExpForNextLevelGrows state its bounds and growth |
| AchievementSystem.Title | exe-frontend/src/utils/achievementSystem.ts:565-579 | no ensures of its own; TitleByLevel states the title of every level band |
| AchievementSystem.Perks | exe-frontend/src/utils/achievementSystem.ts:584-595 | no ensures of its own; PerkCount, PerksReached and PerksMonotone state which perks a level has |
| AchievementSystem.GainExp | exe-frontend/src/utils/achievementSystem.ts:534-542 | no ensures of its own; GainExpEffect and GainExpAccounted state the credit and the level-ups it settles |
| AchievementSystem.CheckOne | exe-frontend/src/utils/achievementSystem.ts:440-480 | no ensures of its own; CheckOneEffect and CheckOneIdempotent state one achievement's check |
| AchievementSystem.CheckAll | exe-frontend/src/utils/achievementSystem.ts:439-512 | no ensures of its own; CheckAllEach, CheckAllLast, CheckAllUnlocked, CheckAllExp, CheckAllBadges, CheckAllRewardCount and CheckAllIdempotent state the whole check |
| AchievementSystem.Reset | exe-frontend/src/utils/achievementSystem.ts:719-737 | no ensures of its own; ResetEffect and ResetKeepsTargets state the reset |
| LearningPredictor.CorrectNeverLowers | exe-frontend/src/utils/learningPredictor.ts:118-129 | for a difficulty in 1..5 a correct answer never lowers the decayed mastery and keeps it at most 1 |
| LearningPredictor.WrongNeverRaises | exe-frontend/src/utils/learningPredictor.ts:130-140 | for a difficulty in 1..5 a wrong answer never raises the decayed mastery and keeps it non-negative |
| LearningPredictor.CountCorrect | exe-frontend/src/utils/learningPredictor.ts:193 | there are at most as many correct records as records |
| LearningPredictor.RecentCorrectRate | exe-frontend/src/utils/learningPredictor.ts:191-193 | the correct rate of the last five records lies in [0, 1] |
| LearningPredictor.TrendOf | exe-frontend/src/utils/learningPredictor.ts:182-201 | stable below three records; improving exactly when mastery rose and the recent correct rate exceeds 0.6; declining exactly when not improving and mastery fell or the rate is below 0.4 |
| LearningPredictor.ForgettingRateOf | exe-frontend/src/utils/learningPredictor.ts:206-221 | the base rate below two records, and always between half and twice the base rate |
| LearningPredictor.Confidence | exe-frontend/src/utils/learningPredictor.ts:154-157 | the confidence lies in [0.5, 1] and is 1 exactly from ten attempts on |
| LearningPredictor.TrackedBounds | exe-frontend/src/utils/learningPredictor.ts:143-167 | a tracked state has confidence in [0.5, 1], correct attempts at most total and a forgetting rate in [0.05, 0.2] |
| LearningPredictor.SnocUnfolds | exe-frontend/src/utils/learningPredictor.ts:143-151 | one more record adds its correctness to the count and its response time to the sum |
| LearningPredictor.AvgStep | exe-frontend/src/utils/learningPredictor.ts:149-151 | the running average stays the mean of all response times |
| LearningPredictor.UpdateTracks | exe-frontend/src/utils/learningPredictor.ts:89-170 | updating a state with one more record keeps it tracking the longer history: attempts, correct attempts, mean response time, confidence, last practice time, forgetting rate and mastery in [0, 1] |
| LearningPredictor.FirstRecord | exe-frontend/src/utils/learningPredictor.ts:93-107 | the first record of a point starts from the initial mastery without decay, with one attempt, a stable trend, the base forgetting rate and confidence 0.55 |
| LearningPredictor.ActionFor | exe-frontend/src/utils/learningPredictor.ts:246-255 | master from 0.9, advance from 0.7, practice from 0.4, review below, each exactly on its range |
| LearningPredictor.RiskFor | exe-frontend/src/utils/learningPredictor.ts:261-268 | low from 0.7, medium from 0.4, high below, each exactly on its range |
| LearningPredictor.SuccessProbabilityBounds | exe-frontend/src/utils/learningPredictor.ts:242-243 | the chance of a correct answer lies between the guess and the no-slip probability and grows with mastery |
| LearningPredictor.PredictionNeverRaises | exe-frontend/src/utils/learningPredictor.ts:232-238 | the mastery predicted a week ahead lies between 0 and the current mastery |
| LearningPredictor.DecayNeverRaises | exe-frontend/src/utils/learningPredictor.ts:109-113 | the decay before an update lies between 0 and the stored mastery |
| LearningPredictor.TimeToMastery | exe-frontend/src/utils/learningPredictor.ts:289-301 | no time once mastered; otherwise non-negative, and positive for a positive response time |
| LearningPredictor.Suggestions | exe-frontend/src/utils/learningPredictor.ts:306-350 | between two and five suggestions, exactly two when the risk is low, the trend stable and the point practised within a week |
| LearningPredictor.PathPriority | exe-frontend/src/utils/learningPredictor.ts:371-394 | the priority lies in [1, 10] |
| LearningPredictor.EstimateDifficulty | exe-frontend/src/utils/learningPredictor.ts:419-430 | at most 5, and 3 without history |
| LearningPredictor.LearningEffectPredictor.constructor | exe-frontend/src/utils/learningPredictor.ts:52-54 | a new predictor has no states, no histories and no keys |
| LearningPredictor.LearningEffectPredictor.PushRecord | exe-frontend/src/utils/learningPredictor.ts:66-73 | the record is appended to its point's history, and a new point's key is listed last |
| LearningPredictor.LearningEffectPredictor.CalculateForgettingRate | exe-frontend/src/utils/learningPredictor.ts:206-221 | the loop computes the forgetting rate of the point's history |
| LearningPredictor.LearningEffectPredictor.UpdateKnowledgeState | exe-frontend/src/utils/learningPredictor.ts:89-170 | only the point's state changes, to the update of the stored state over the history |
| LearningPredictor.LearningEffectPredictor.AddLearningRecord | exe-frontend/src/utils/learningPredictor.ts:66-77 | the history gets the record and the point's state is updated from it, keeping the predictor consistent |
| LearningPredictor.LearningEffectPredictor.AddLearningRecords | exe-frontend/src/utils/learningPredictor.ts:82-84 | the histories, knowledge states and key order become AddAll of the old ones: addLearningRecord for each record in turn; every point's history grows by its records in order, and the predictor stays consistent |
| LearningPredictor.AddAllConsistent | exe-frontend/src/utils/learningPredictor.ts:82-84 | a batch of records keeps the predictor invariant: one tracked state and history per key, keys listed once |
| LearningPredictor.AddAllHistories | exe-frontend/src/utils/learningPredictor.ts:82-84 | after a batch each point's history is its old history followed by its records, in order |
| LearningPredictor.AddAllExtendsOrder | exe-frontend/src/utils/learningPredictor.ts:82-84 | a batch only appends to the Map insertion order, and every appended key is a point of the batch |
| LearningPredictor.AddAllKeepsOthers | exe-frontend/src/utils/learningPredictor.ts:82-84 | a point that no record names keeps its state and history |
| LearningPredictor.LearningEffectPredictor.Predict | exe-frontend/src/utils/learningPredictor.ts:226-284 | nothing exactly for an unknown point; otherwise a prediction for that point at its current mastery |
| LearningPredictor.LearningEffectPredictor.AllKnowledgeStates | exe-frontend/src/utils/learningPredictor.ts:355-357 | the states in insertion order |
| LearningPredictor.LearningEffectPredictor.GenerateLearningPath | exe-frontend/src/utils/learningPredictor.ts:362-414 | the paths of all known points sorted highest priority first |
| LearningPredictor.LearningEffectPredictor.WeakKnowledgePoints | exe-frontend/src/utils/learningPredictor.ts:466-470 | exactly the states below 0.6 mastery, as a permutation, weakest first |
| LearningPredictor.LearningEffectPredictor.ReviewNeeded | exe-frontend/src/utils/learningPredictor.ts:475-481 | exactly the states last practised more than three days ago and below 0.9 mastery |
| LearningPredictor.LearningEffectPredictor.Clear | exe-frontend/src/utils/learningPredictor.ts:486-489 | both maps are emptied |
| LearningPredictor.AddPreserves | exe-frontend/src/utils/learningPredictor.ts:66-77 | one added record keeps one tracked state and history per key, with keys listed once in insertion order |
| LearningPredictor.SortKeepsWeak | exe-frontend/src/utils/learningPredictor.ts:466-470 | sorting keeps only weak states |
| LearningPredictor.HistoriesStep | exe-frontend/src/utils/learningPredictor.ts:82-84 | one more record of the batch extends its point's history and no other |
| LearningPredictor.RecordsForSnoc | exe-frontend/src/utils/learningPredictor.ts:82-84 | the records of a point in a longer batch are those of the prefix plus the last one if it is of that point |
| LearningPredictor.ConsistentReady | exe-frontend/src/utils/learningPredictor.ts:366-368 | every known point has a prediction and a computable path |
| LearningPredictor.LearningPathSorted | exe-frontend/src/utils/learningPredictor.ts:362-414 | one path per known point, priorities in [1, 10], highest first |
| LearningPredictor.PrioritiesKept | exe-frontend/src/utils/learningPredictor.ts:413 | sorting keeps priorities in [1, 10] |
| LearningPredictor.PathsOfShape | exe-frontend/src/utils/learningPredictor.ts:366-410 | the loop yields one path per key, for that key, with priority in [1, 10] |
| LearningPredictor.NewMastery | exe-frontend/src/utils/learningPredictor.ts:118-140 | no ensures of its own; CorrectNeverLowers states that a correct answer never lowers the decayed mastery nor lifts it above 1, WrongNeverRaises that a wrong one never raises it nor drops it below 0 |
| LearningPredictor.UpdateState | exe-frontend/src/utils/learningPredictor.ts:89-170 | no ensures of its own; FirstRecord states the state made from a first record, UpdateTracks that the new state tracks the extended history (so TrackedBounds bounds it) |
| LearningPredictor.SuccessProbability | exe-frontend/src/utils/learningPredictor.ts:242-243 | no ensures of its own; SuccessProbabilityBounds states that it lies between the guess and one minus the slip probability and grows with mastery |
| LearningPredictor.PredictedMastery | exe-frontend/src/utils/learningPredictor.ts:232-238 | no ensures of its own; PredictionNeverRaises states that the forecast a week ahead lies between 0 and the current mastery |
| LearningPredictor.PredictionOf | exe-frontend/src/utils/learningPredictor.ts:226-284 | no ensures of its own; PredictionOfFacts states the fields of a prediction |
| LearningPredictor.PredictionOfFacts | exe-frontend/src/utils/learningPredictor.ts:226-284 | a prediction names the point and its current mastery, predicts no more than that mastery, keeps the success probability between guess and one minus slip, rates the risk high exactly below 0.4 predicted, never suggests review at low risk, says master exactly from 0.9, and gives two to five suggestions |
| SmartRecommendation.RatingBounds | exe-frontend/src/utils/smartRecommendation.ts:97-128 | a well-formed behaviour's rating lies above half its base rating and at most 8 |
| SmartRecommendation.RecordStep | exe-frontend/src/utils/smartRecommendation.ts:130-132 | recording a behaviour adds its rating to its own user-item pair and leaves every other pair unchanged |
| SmartRecommendation.RatingsAccumulate | exe-frontend/src/utils/smartRecommendation.ts:88-133 | after a batch a pair's rating is its rating before plus the ratings of the batch's behaviours on that pair |
| SmartRecommendation.RatingSumNonNegative | exe-frontend/src/utils/smartRecommendation.ts:97-132 | well-formed behaviours only ever raise a pair's rating |
| SmartRecommendation.Norm | exe-frontend/src/utils/smartRecommendation.ts:219 | a squared norm is never negative |
| SmartRecommendation.Cosine | exe-frontend/src/utils/smartRecommendation.ts:205-226 | the cosine is 0 when either vector is empty |
| SmartRecommendation.DotSelf | exe-frontend/src/utils/smartRecommendation.ts:218-220 | a vector's dot product with itself is its squared norm |
| SmartRecommendation.CosineSelf | exe-frontend/src/utils/smartRecommendation.ts:205-226 | a vector with some non-zero rating has cosine 1 with itself |
| SmartRecommendation.CosineNonNegative | exe-frontend/src/utils/smartRecommendation.ts:205-226 | vectors of non-negative ratings have a non-negative cosine |
| SmartRecommendation.DotNonNegative | exe-frontend/src/utils/smartRecommendation.ts:218 | the dot product of non-negative vectors is non-negative |
| SmartRecommendation.SimilarCandidates | exe-frontend/src/utils/smartRecommendation.ts:185-192 | every candidate is another listed user with a similarity above 0.1 |
| SmartRecommendation.SimilaritiesShape | exe-frontend/src/utils/smartRecommendation.ts:178-200 | the neighbourhood excludes the user, keeps only similarities above 0.1, holds at most 20 users most similar first, and is empty for a user without a row |
| SmartRecommendation.SimilarCandidatesComplete | exe-frontend/src/utils/smartRecommendation.ts:185-192 | every other user of the matrix whose cosine similarity exceeds 0.1 is a candidate with exactly that similarity, every candidate carries its own cosine, and no user is listed twice |
| SmartRecommendation.SimilaritiesTopK | exe-frontend/src/utils/smartRecommendation.ts:194-199 | the neighbourhood holds min(candidates, 20) candidates, all of them when there are at most 20, and no candidate left out is more similar than any candidate kept |
| SmartRecommendation.SumsStep | exe-frontend/src/utils/smartRecommendation.ts:159-165 | one more neighbour adds its weighted rating and its similarity exactly when it rated the item |
| SmartRecommendation.CfLoop | exe-frontend/src/utils/smartRecommendation.ts:150-170 | only candidates the user has not rated are scored |
| SmartRecommendation.CfSkipsRated | exe-frontend/src/utils/smartRecommendation.ts:150-153 | collaborative filtering never scores an item the user rated, nor a non-candidate |
| SmartRecommendation.WeightedSumWithin | exe-frontend/src/utils/smartRecommendation.ts:159-165 | with positive similarities the weighted sum lies between lo and hi times the similarity sum |
| SmartRecommendation.CfLoopWithin | exe-frontend/src/utils/smartRecommendation.ts:167-169 | every collaborative score of the loop lies within the bounds of the stored ratings |
| SmartRecommendation.CfScoresWithin | exe-frontend/src/utils/smartRecommendation.ts:138-173 | a collaborative score is a similarity-weighted mean, so it lies within any bounds of all stored ratings |
| SmartRecommendation.Count | exe-frontend/src/utils/smartRecommendation.ts:269-283 | the counted keys are the old ones and the counted values, and counts stay at least 1 |
| SmartRecommendation.TallyOf | exe-frontend/src/utils/smartRecommendation.ts:263-291 | the tag counts hold exactly the tags of the known items behind the behaviours |
| SmartRecommendation.TopIndex | exe-frontend/src/utils/smartRecommendation.ts:545-557 | the first position holding the greatest value, or -1 for no entries |
| SmartRecommendation.TopKeys | exe-frontend/src/utils/smartRecommendation.ts:299-306 | at most n keys, each a counted key |
| SmartRecommendation.ProfileShape | exe-frontend/src/utils/smartRecommendation.ts:252-311 | a profile exactly for a user with behaviours, with the profile id, at most five tags each seen in the user's items, and at most ten knowledge points |
| SmartRecommendation.Shared | exe-frontend/src/utils/smartRecommendation.ts:331 | the shared elements are those of the first list also in the second, no more than the first list |
| SmartRecommendation.Overlap | exe-frontend/src/utils/smartRecommendation.ts:331-333 | none (NaN) exactly when both lists are empty, and a proportion when the first has no repeats |
| SmartRecommendation.ContentSimilarity | exe-frontend/src/utils/smartRecommendation.ts:316-354 | NaN exactly when both sides have empty tag lists or both have empty knowledge point lists |
| SmartRecommendation.ContentSimilarityInUnitRange | exe-frontend/src/utils/smartRecommendation.ts:316-354 | against a profile without repeated tags or knowledge points, content similarity lies in [0, 1]; ProfileHasNoRepeats shows that every profile buildUserProfile builds is one |
| SmartRecommendation.ContentLoop | exe-frontend/src/utils/smartRecommendation.ts:239-244 | only positive similarities are kept |
| SmartRecommendation.MaxOf | exe-frontend/src/utils/smartRecommendation.ts:373 | the maximum bounds every value and the floor, and is one of them |
| SmartRecommendation.RawScoresNonNegative | exe-frontend/src/utils/smartRecommendation.ts:363-370 | raw popularity is non-negative for non-negative counts and averages |
| SmartRecommendation.RawPopularityNonNegative | exe-frontend/src/utils/smartRecommendation.ts:364-368 | one item's raw popularity is non-negative for non-negative statistics |
| SmartRecommendation.PopularityAtMostOne | exe-frontend/src/utils/smartRecommendation.ts:372-376 | normalised popularity never exceeds 1 |
| SmartRecommendation.PopularityNonNegative | exe-frontend/src/utils/smartRecommendation.ts:363-376 | normalised popularity is never negative for non-negative statistics |
| SmartRecommendation.TagFrequency | exe-frontend/src/utils/smartRecommendation.ts:475-482 | every tag frequency is at least 1 |
| SmartRecommendation.Uniqueness | exe-frontend/src/utils/smartRecommendation.ts:485-488 | the rarity sum is positive for some tags and at most the number of tags |
| SmartRecommendation.DiversityLoopInRange | exe-frontend/src/utils/smartRecommendation.ts:469-494 | every diversity lies in (0, 1] |
| SmartRecommendation.DiversityInRange | exe-frontend/src/utils/smartRecommendation.ts:463-497 | diversity is 1 for an item without tags and otherwise a positive proportion |
| SmartRecommendation.ItemNovelty | exe-frontend/src/utils/smartRecommendation.ts:506-514 | 1 for an untouched item; otherwise 0 exactly when the rating reaches 10, and at most 1 for non-negative ratings |
| SmartRecommendation.NoveltyOf | exe-frontend/src/utils/smartRecommendation.ts:502-518 | novelty is never negative |
| SmartRecommendation.ExplanationLines | exe-frontend/src/utils/smartRecommendation.ts:412-424 | the explanation names exactly the signals above 0.5, the default line exactly when there is none, and one to three lines |
| SmartRecommendation.Reason | exe-frontend/src/utils/smartRecommendation.ts:523-528 | each reason exactly on its score range |
| SmartRecommendation.Confidence | exe-frontend/src/utils/smartRecommendation.ts:533-540 | a percentage in [0, 100] when its inputs are proportions, and non-negative for non-negative inputs |
| SmartRecommendation.Results | exe-frontend/src/utils/smartRecommendation.ts:435-452 | one result per candidate in candidate order |
| SmartRecommendation.TopResultsShape | exe-frontend/src/utils/smartRecommendation.ts:455-457 | at most topN of the results, each one of them, highest score first |
| SmartRecommendation.LogAllAppends | exe-frontend/src/utils/smartRecommendation.ts:53-58 | a batch appends to each user's list exactly that user's behaviours, in order |
| SmartRecommendation.ItemsById | exe-frontend/src/utils/smartRecommendation.ts:81-83 | the batch sets exactly the ids of its items |
| SmartRecommendation.ItemsByIdStep | exe-frontend/src/utils/smartRecommendation.ts:74-75 | one more item sets its id to it |
| SmartRecommendation.DotAndNorms | exe-frontend/src/utils/smartRecommendation.ts:209-221 | the loop computes the dot product and both squared norms over the keys |
| SmartRecommendation.CosineSimilarity | exe-frontend/src/utils/smartRecommendation.ts:205-226 | the method computes the cosine of the two vectors |
| SmartRecommendation.CountInto | exe-frontend/src/utils/smartRecommendation.ts:274-283 | the loop counts each element into the map |
| SmartRecommendation.GetTopItem | exe-frontend/src/utils/smartRecommendation.ts:545-557 | the first key with the greatest value, none for an empty map |
| SmartRecommendation.PopularityBasedFiltering | exe-frontend/src/utils/smartRecommendation.ts:359-379 | the normalised popularity of each candidate, never above 1 |
| SmartRecommendation.TagFrequencyOf | exe-frontend/src/utils/smartRecommendation.ts:475-482 | the loop counts every tag of every item |
| SmartRecommendation.CalculateDiversity | exe-frontend/src/utils/smartRecommendation.ts:463-497 | the diversity of each item, in (0, 1] |
| SmartRecommendation.NeighbourSums | exe-frontend/src/utils/smartRecommendation.ts:155-165 | the weighted sum and the similarity sum over the neighbours that rated the item |
| SmartRecommendation.ExplanationFor | exe-frontend/src/utils/smartRecommendation.ts:412-424 | the lines pushed are the explanation of the three scores |
| SmartRecommendation.BlendScores | exe-frontend/src/utils/smartRecommendation.ts:396-426 | the blended score and explanation of each candidate |
| SmartRecommendation.SmartRecommendationEngine.constructor | exe-frontend/src/utils/smartRecommendation.ts:40-43 | a new engine has no behaviours, items, users or ratings |
| SmartRecommendation.SmartRecommendationEngine.AddBehavior | exe-frontend/src/utils/smartRecommendation.ts:53-62 | the behaviour joins its user's list, a new user is enrolled and its rating is added to the matrix |
| SmartRecommendation.SmartRecommendationEngine.AddBehaviors | exe-frontend/src/utils/smartRecommendation.ts:67-69 | every behaviour in turn is logged, enrolled and rated |
| SmartRecommendation.SmartRecommendationEngine.AddItem | exe-frontend/src/utils/smartRecommendation.ts:74-76 | the item is stored under its id |
| SmartRecommendation.SmartRecommendationEngine.AddItems | exe-frontend/src/utils/smartRecommendation.ts:81-83 | every item is stored under its id, the last one winning |
| SmartRecommendation.SmartRecommendationEngine.UpdateUserItemMatrix | exe-frontend/src/utils/smartRecommendation.ts:88-133 | the rating is added to the pair, enrolling a new user |
| SmartRecommendation.SmartRecommendationEngine.CalculateUserSimilarities | exe-frontend/src/utils/smartRecommendation.ts:178-200 | the neighbourhood of the user: at most 20 other users above 0.1, most similar first |
| SmartRecommendation.SmartRecommendationEngine.CollaborativeFiltering | exe-frontend/src/utils/smartRecommendation.ts:138-173 | the collaborative scores; none for a user without ratings, and never for a rated item or a non-candidate |
| SmartRecommendation.SmartRecommendationEngine.BuildUserProfile | exe-frontend/src/utils/smartRecommendation.ts:252-311 | the profile built from the user's behaviours |
| SmartRecommendation.SmartRecommendationEngine.ContentBasedFiltering | exe-frontend/src/utils/smartRecommendation.ts:231-247 | the positive content similarities of the candidates |
| SmartRecommendation.SmartRecommendationEngine.CalculateNovelty | exe-frontend/src/utils/smartRecommendation.ts:502-518 | the novelty of each item |
| SmartRecommendation.SmartRecommendationEngine.Recommend | exe-frontend/src/utils/smartRecommendation.ts:384-458 | at most topN candidates, highest blended and diversity-adjusted score first, as the ranking of the three signals defines |
| SmartRecommendation.SmartRecommendationEngine.Clear | exe-frontend/src/utils/smartRecommendation.ts:562-566 | all maps are emptied |
| SmartRecommendation.Rating | exe-frontend/src/utils/smartRecommendation.ts:97-128 | no ensures of its own; RatingBounds states that one behaviour's decayed rating exceeds half its type's base rating and is at most 8 |
| SmartRecommendation.CfScores | exe-frontend/src/utils/smartRecommendation.ts:138-173 | no ensures of its own; CfScoresWithin states that predicted scores stay within the bounds of the neighbours' ratings, CfSkipsRated that only candidates the user has not rated get a score |
| SmartRecommendation.ProfileOf | exe-frontend/src/utils/smartRecommendation.ts:252-311 | no ensures of its own; ProfileShape states that a profile exists exactly when the user has behaviours, and that it is named after the user and holds at most the profile's number of tags, all seen on the user's rated items, and of knowledge points |
| SmartRecommendation.PopularityOf | exe-frontend/src/utils/smartRecommendation.ts:359-379 | no ensures of its own; PopularityAtMostOne and PopularityNonNegative state that the normalised scores lie in [0, 1] |
| SmartRecommendation.DiversityOf | exe-frontend/src/utils/smartRecommendation.ts:463-497 | no ensures of its own; DiversityInRange states that every diversity lies in (0, 1] and an untagged item scores 1 |
| SmartRecommendation.TopResults | exe-frontend/src/utils/smartRecommendation.ts:455-457 | no ensures of its own; TopResultsShape states that it keeps at most topN results, all among the candidates, in descending score order |
| SmartRecommendation.Blend | exe-frontend/src/utils/smartRecommendation.ts:399-407 | no ensures of its own; BlendWithin states its range |
| SmartRecommendation.BlendWithin | exe-frontend/src/utils/smartRecommendation.ts:399-407 | with every strategy's scores in [0, 1], the weighted blend lies in [0, 1], and a candidate no strategy scored blends to 0 |
| SmartRecommendation.BlendMonotone | exe-frontend/src/utils/smartRecommendation.ts:399-407 | a higher score from any of the three strategies never lowers the blended score |
| SmartRecommendation.CountDistinct | exe-frontend/src/utils/smartRecommendation.ts:274-283 | counting into a Map never lists a key twice |
| SmartRecommendation.TopKeysDistinct | exe-frontend/src/utils/smartRecommendation.ts:299-306 | the top keys of a Map's counts are distinct, since sorting only rearranges the entries |
| SmartRecommendation.ProfileHasNoRepeats | exe-frontend/src/utils/smartRecommendation.ts:252-311 | a user profile's tags and knowledge points have no repeats |
| SmartRecommendation.ProfileSimilarityInUnitRange | exe-frontend/src/utils/smartRecommendation.ts:231-354 | content similarity against a built profile lies in [0, 1] whenever it is a number |

## Left out

- Java `int`/`long` overflow is not modelled. All integers are unbounded, and the counters, scores and experience in the source stay far below the limits.
- Floating-point rounding is not modelled. JavaScript numbers and Java doubles are exact reals. `Math.round`, `Math.floor`, `Math.ceil` and Java's `(long)` cast are modelled exactly on those reals. This affects the time-to-mastery estimate, the cultivation cap growth and the rounded exam rates.
- `Math.exp`, `Math.sqrt` and `Math.log10` are function parameters, constrained only by `IsExp`, `IsSqrt` and `IsLog10`:
  - `exp` is positive and monotone with `exp(0) = 1`;
  - `sqrt` is the exact non-negative square root;
  - `log10` is monotone from `log10(1) = 0`.
- NaN is modelled where the source can produce it in the recommender's content similarity (0/0 for two empty tag lists). It is `Option.None`.
- The clock (`Date.now()`, `LocalDateTime.now()`, `System.currentTimeMillis()`) is one `now` parameter per call. Durations are milliseconds.
- Randomness is left out. The epiphany roll of cultivation's experience gain is a boolean parameter. The breakthrough success roll is left out, and `doSuccess` and `doFail` are modelled separately. The random question choice and room ids (UUIDs) are left out.
- Threads, timers, locks, `Thread.sleep`, WebSocket messaging, Redis and logging are left out, because the rules are sequential. The battle room models the state that the message handlers change, not the messages.
- Database access is left out. Mapper queries, `save` and `updateById` become maps from ids to records, or lists passed in. Generated ids are parameters.
- JSON parsing and HTTP calls to the AI service are left out. The AI call in chunked extraction is a function parameter, and a failed call yields no points.
- `localStorage` persistence in the practice store is left out (`saveSession`, `saveToHistory`, `saveAchievements`, `loadAchievements` and `restoreSession`).
- Other practice-store members are left out because they only copy, reset or summarise fields:
  - `completePractice`, `resetPractice`, `saveAiGrading`, `pausePractice` and `resumePractice`;
  - the getters other than `userLevel`: `currentQuestion`, `progressPercentage`, `answeredCount`, `correctCount`, `wrongCount`, `currentAccuracy`, `isCompleted`, `practiceDuration`, `averageAnswerTime` and `levelProgress`.
- Several achievement-system members are left out:
  - the read-only getters (`getAllAchievements`, `getUnlockedAchievements`, `getInProgressAchievements`, `getNextAchievements`, `getLevel`, `getBadges`, `getStats`);
  - `getLeaderboardRank`, whose values are placeholders for a server call;
  - `getDailyTasks`, a constant list;
  - the singleton accessors and the `create*` factories of the three front-end utilities.
- AchievementSystem: `updateLevel` (achievementSystem.ts:600-602) has an empty body and is not modelled.
- Map and object iteration order:
  - JavaScript `Map` order is modelled as insertion order (`OrderedMaps`).
  - The per-knowledge-point analysis of an exam result comes from a Java `HashMap`, so its order is unspecified. It is a Dafny `map` keyed by knowledge-point id.
- Aliasing is not modelled. The source hands out live references to its records, for example `getAllKnowledgeStates` and the recommendation results. The model returns values.
- Text: `toLowerCase` and `toUpperCase` change ASCII letters only. String comparison and `sort()` order strings by character, with no locale collation. A Dafny character is a Unicode code point, while JavaScript compares UTF-16 code units; the two orders agree except for characters outside the Basic Multilingual Plane.
- BattleTiers: the tier order (`ORDERED_TIERS`) is a parameter of the matchmaking neighbour functions. Their lemmas hold for any list of distinct tiers, including the source's.
- SmartRecommendation.SmartRecommendationEngine.Recommend: the default arguments `topN = 10` and `diversityWeight = 0.3` are not modelled; both are explicit parameters.
- SmartRecommendation: `calculateDiversity` ignores its second argument, and the model omits it. `Item.features` is never read and is not modelled.
- SmartRecommendation: the range lemmas assume only what the data supplies:
  - non-negative practice counts and average scores;
  - behaviours that lie in the past, with non-negative durations and scores in [0, 100].
- WrongRecordReview: the fifth `REVIEW_INTERVALS` entry (30 days) is never reached, because the fifth correct review masters the record first (`ThirtyDaysNeverScheduled`).
- GradingApproval: `createApproval` with a null `newScore` throws a NullPointerException. The model takes the new score as an integer, so that case is not represented.
- Cultivation.Profile.SettleAfkReward: models `addExp` acting on the same profile object that `settleAfkReward` writes back, as when both loads return one session-cached instance. That one object therefore receives the spirit-root bonus twice, once per load. If `addExp` loaded a separate copy, the final `updateById` of the earlier copy would overwrite the credited experience and attack. That outcome is not modelled.
- Cultivation.AfkSettlement: the `(int)` cast of the reward passed to `addExp` is not modelled. A day's reward stays far below the `int` range.
- ExamStats.GetScoreStats: takes scores that are present. `ExamStats.ScoreStatsOf` models a null score, which makes the average throw a NullPointerException.
- ExamStats.KnowledgePointAnalysis: the two NullPointerExceptions are one `None`. One comes from a null question score, which throws only when the question has a linked knowledge point. The other comes from a null stored name of a point of the totals, which makes `Collectors.toMap` throw. The model does not say which of the two happened.
- Cultivation: the question-answering and item flows around breakthroughs (`breakthrough`, `breakthroughWithItem`, `breakthroughWithQuiz`, `meditateWithEvent`) are left out. They roll random numbers or read questions and goods from the database. `DoSuccess` and `DoFail` model the steps they end in.
- Cultivation.Profile.AddExp: models the code as written, so the bonus is stored again on every load. The intended behaviour, with the bonus only on the copy that is shown, is `Displayed` (see Findings).
- Cultivation.Profile.ApplySpiritRootBonuses: the parsing of the `spiritRoots` JSON text is not modelled. The profile holds the parsed map, and a null value in it, which would fail on unboxing, is not represented. `SpiritRootEnum.java` is not part of this model. Its five constants are the ones the bonus switch names, and the sum does not depend on their order. `calculateLevel` is modelled as the exact integer square root, not as a floating-point `Math.sqrt`.
- Cultivation: `addSpiritRootExp`, which adds a score to one root's experience, is not modelled. It maps subject names to roots through `SpiritRootEnum.matchBySubject`, which is not part of this model.
- Other service methods in the same Java files are request plumbing and are left out, for example paging queries, controllers and queue handling.
- KnowledgeExtraction: the model of `splitTextIntoChunks` is the corrected loop (see Findings).

## Findings

| source | as written | input that shows it | evidently intended | confidence | as-written member | corrected member |
|---|---|---|---|---|---|---|
| exe-backend/src/main/java/com/ice/exebackend/service/impl/CultivationServiceImpl.java:74-95 | `getOrCreateProfile` adds the spirit-root bonus to the loaded profile, and `addExp` and `settleAfkReward` save that object with `updateById`. Each call therefore stores the bonus again, although the comment at line 434 says the bonus is not saved | a profile with attack 10 and one METAL root at 10 experience (level 1, +5 attack), then `addExp(0)` twice: attack 10 → 16 → 22 | the bonus only on the copy that is shown or used in battle, with attack 10 → 11 → 12 stored | not executed | Cultivation.AsWrittenBonusCompounds, Cultivation.AsWrittenBonusPerCredit, Cultivation.LoadAndCredit | Cultivation.IntendedBonusAppliedOnce, Cultivation.Displayed |
| exe-backend/src/main/java/com/ice/exebackend/service/AiServiceV3.java:424-437 | once a chunk reaches the end of the text, `start = end - overlap` sets the next start to `length - overlap`, so the same last chunk is cut again and the loop never exits whenever the text has at least `overlap` characters | a 9000-character text without newlines, chunkSize 6000, overlap 200: chunks start at 0, 5800, 8800, 8800, ... forever | stop after the chunk that reaches the end of the text | not executed | KnowledgeExtraction.AsWrittenLoopNeverExits, KnowledgeExtraction.AsWrittenRepeatsLastChunk | KnowledgeExtraction.SplitTextIntoChunks |
