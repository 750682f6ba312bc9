# Language-learning app: verified model of the core

This project is a Dafny model of the core of a language-learning web
application. The server is Express with Mongoose documents; the client is
React. The model covers the following parts.

- **Spaced-repetition scheduler** (`server/models/Vocabulary.js`):
  - each answer moves a word's mastery level and folds in the response time;
  - the next review is chosen from a table of intervals (1, 3, 7, 14 or 30
    days) keyed by mastery and accuracy;
  - `getDueForReview` selects the active words of a language whose review
    date has passed, at most 20 of them.
- **Server documents**:
  - Progress: skills, lessons, quizzes, word lists and study sessions;
  - User: the `level` virtual, daily streaks and achievements;
  - Lesson: attempt statistics, completion rate, difficulty and the
    publication stamp.
- **Controller decisions**:
  - vocabulary listing, update, soft delete, review queue and practice;
  - lesson listing and rating;
  - progress recording (merging into the day's record, XP, level-ups) and
    the achievements report;
  - registration, profile and learning-language updates, and the
    achievements list.
- **Middleware**: the authentication, role and ownership middleware.
- **Client**:
  - the auth and learning reducers;
  - the static lesson catalogue with its lookups;
  - the registration form's validation;
  - the word list's filters and edits;
  - the flashcard session.

Where the source changes a document or page state in place, the model
does the same with a `class`: `Progress`, `User`, `Lesson`,
`VocabularyItem`, the stores and `DailyRecord` on the server, and
`RegisterPage` and `FlashcardSession` on the client. Each method's
postcondition ties the new state to a specification function of the old
one. Pure decisions are modelled as functions, and reducers as functions
from state and action to state.

Lemmas relate these functions to each other: round trips, idempotence,
monotonicity, invariants kept, and worked schedules.

Values are modelled as follows:

- Times are integers in milliseconds.
- "Now" is always a parameter.
- Mastery is counted in tenths of a level.
- Percentages produced by `toFixed(2)` are counted in hundredths.

Modules, one file each: `Common`, `VocabularyModel`, `ProgressModel`,
`UserModel`, `LessonModel`, `Paging`, `VocabularyController`,
`LessonController`, `ProgressController`, `AuthController`,
`AuthMiddleware`, `AuthContext`, `LearningContext`, `LessonCatalogue`,
`RegisterForm`, `VocabularyPage` and `Flashcards`.

## Model

| member | source | states |
|---|---|---|
| Common.RoundDiv | server/models/Lesson.js:191 | `Math.round(a / b)`: the result is the integer nearest a/b, with halves rounded up |
| Common.CeilDiv | server/controllers/vocabularyController.js:53 | `Math.ceil(a / b)`: the least r with a <= b·r |
| Common.PercentHundredths | server/models/Vocabulary.js:210 | `((part/total)*100).toFixed(2)` in hundredths: the nearest hundredth of the percentage, 0 for total 0, within 0..10000 when part <= total |
| Common.Lower | client/src/pages/Vocabulary.js:109 | `toLowerCase`: same length, each ASCII capital mapped to its small letter and every other character kept |
| Common.Filter | client/src/pages/Vocabulary.js:108-111 | `Array.prototype.filter`: keeps exactly the elements satisfying the predicate, and keeps everything when all do |
| Common.FilterMultiset | client/src/pages/Vocabulary.js:108-111 | `filter` never adds copies: every element occurs in the result at most as often as in the input |
| Common.FilterIsSubsequence | client/src/pages/Vocabulary.js:158 | a filtered array keeps its elements in their original order |
| Common.FindFirst | server/controllers/lessonController.js:296-298 | `findIndex`: the index of an element satisfying the predicate, or none exactly when no element does |
| Common.Dedup | server/controllers/progressController.js:182 | `[...new Set(s)]`: no element twice, and exactly the elements of s |
| Common.DedupKeepsDistinctPrefix | server/controllers/progressController.js:182 | de-duplicating a duplicate-free list followed by more elements keeps that list as a prefix |
| Common.SortBy | server/controllers/authController.js:401 | `sort(compare)` gives a permutation of its input |
| Common.SortByIsSorted | server/controllers/progressController.js:543-550 | for a strict-order comparator, the sorted array has no element strictly before an earlier one |
| Common.Slice | server/controllers/authController.js:402 | `slice(lo, hi)` with bounds clamped to the length |
| Common.LastN | server/models/Progress.js:510 | `slice(-n)`: the last min(n, length) elements, in order |
| Common.Spread | client/src/contexts/AuthContext.js:45 | `{ ...a, ...b }` (also the preference merge of `updateProfile`): the keys of both, with b's values winning |
| Common.Field | client/src/contexts/LearningContext.js:67 | reading a field gives its value, or undefined exactly when the field is absent |
| VocabularyModel.AccuracyRate | server/models/Vocabulary.js:207-211 | the `accuracyRate` virtual lies within 0..100.00 %, is 0 before any correct answer and is 100.00 when every answer was correct |
| VocabularyModel.HighAccuracyExactly | server/models/Vocabulary.js:254-261 | the interval table's "accuracy above 0.8" holds exactly when the rate rounded to hundredths exceeds 80.00, which is stricter than correct/total > 0.8 |
| VocabularyModel.RatioJustAboveFourFifthsIsNotHigh | server/models/Vocabulary.js:254 | 80001 of 100000 correct is above 0.8, but the rounded rate "80.00" gives the shorter interval |
| VocabularyModel.MasteryStatusOf | server/models/Vocabulary.js:214-222 | `masteryStatus` names a level only when mastery equals 0, 1, 2, 3 or 4 exactly; anything else reads "Expert" |
| VocabularyModel.OneCorrectAnswerReadsExpert | server/models/Vocabulary.js:214-233 | a new word answered correctly once (mastery 0.2) already reads "Expert" |
| VocabularyModel.NextMastery | server/models/Vocabulary.js:229-241 | a correct answer adds 0.2 exactly when mastery is below 5, a wrong one subtracts 0.1 when mastery is above 0, and mastery stays within 0..5.1 |
| VocabularyModel.MasteryOvershootsSchemaMax | server/models/Vocabulary.js:229-234 | the `< 5` guard is not a clamp: 4.9 plus a correct answer gives 5.1, above the schema's `max: 5` (line 153) |
| VocabularyModel.OnlyFourPointNineOvershoots | server/models/Vocabulary.js:150-155 | from a schema-valid state, an answer leaves the schema's range exactly when it is correct at mastery 4.9 |
| VocabularyModel.IntervalDays | server/models/Vocabulary.js:256-268 | the interval is 1, 3, 7, 14 or 30 days, and always 1 below mastery 1 |
| VocabularyModel.IntervalMonotoneInMastery | server/models/Vocabulary.js:258-268 | more mastery never shortens the interval |
| VocabularyModel.IntervalMonotoneInAccuracy | server/models/Vocabulary.js:258-268 | high accuracy never shortens the interval, and lengthens it from mastery 1 up |
| VocabularyModel.LowAccuracyIsOneBucketDown | server/models/Vocabulary.js:258-268 | between mastery 1 and 5, low accuracy gives the interval of the bucket one level lower |
| VocabularyModel.BucketEdgesAreClosedBelow | server/models/Vocabulary.js:258-268 | mastery 1, 2, 3 and 4 fall into the upper bucket (3, 7, 14 and 30 days) |
| VocabularyModel.NextReviewAt | server/models/Vocabulary.js:252-273 | the next review lies between one and thirty days after now |
| VocabularyModel.Reviewed | server/models/Vocabulary.js:225-249 | one answer counts one review and one correct or wrong answer, moves mastery by `NextMastery`, makes the average the mean of all response times, stamps the review and schedules a later one; every review stays counted exactly once |
| VocabularyModel.RunningMean | server/models/Vocabulary.js:244-245 | the new average times the new count equals the old total plus the new response time |
| VocabularyModel.ReviewIsNotIdempotent | server/models/Vocabulary.js:226 | answering again always changes the learning data |
| VocabularyModel.CorrectRun | server/models/Vocabulary.js:225-273 | k correct answers in a row from a new word (k <= 25) reach mastery 0.2·k with all k answers correct |
| VocabularyModel.TwentyCorrectAnswersGiveThirtyDays | server/models/Vocabulary.js:225-273 | twenty correct answers from scratch reach mastery 4 and a 30-day interval |
| VocabularyModel.FirstCorrectReview | server/models/Vocabulary.js:225-273 | the first correct answer on a new word gives mastery 0.2, that answer's response time as the average, and a review one day later |
| VocabularyModel.WrongAnswerInThirdBucket | server/models/Vocabulary.js:225-273 | at mastery 2.5 with 9 of 10 correct, a wrong answer gives mastery 2.4 and a 7-day interval |
| VocabularyModel.VocabularyItem.Create | server/models/Vocabulary.js:135-192 | a new word carries the schema's learning defaults and is active |
| VocabularyModel.VocabularyItem.PreSave | server/models/Vocabulary.js:304-309 | a new document without a next-review date becomes due now; otherwise the date is kept |
| VocabularyModel.VocabularyItem.UpdateLearningData | server/models/Vocabulary.js:225-249 | the document afterwards equals the old one with its learning data replaced by `Reviewed` |
| VocabularyModel.VocabularyItem.RecordAnswer | server/models/Vocabulary.js:226-245 | the counters, mastery, average and review stamp are updated, before any rescheduling |
| VocabularyModel.VocabularyItem.CalculateNextReview | server/models/Vocabulary.js:252-273 | the next review is set from the table, using the current mastery and accuracy |
| VocabularyModel.Limit | server/models/Vocabulary.js:282 | `limit(n)`: the first min(n, length) results, and all of them when n is 0 |
| VocabularyModel.AllDue | server/models/Vocabulary.js:278-281 | exactly the active words of the language whose review date has passed, in store order |
| VocabularyModel.DueForReview | server/models/Vocabulary.js:276-283 | at most 20 words, all due, a prefix of the due list, and every due word once fewer than 20 are returned |
| VocabularyModel.DueForReviewIgnoresUser | server/models/Vocabulary.js:276-283 | the user passed in does not affect which words are due |
| VocabularyModel.DueStaysDue | server/models/Vocabulary.js:280 | a due word stays due as time passes |
| VocabularyModel.ReviewedWordRestsADay | server/models/Vocabulary.js:258-272 | a word just reviewed is not due again before a full day has passed |
| ProgressModel.DefaultSkills | server/models/Progress.js:43-150 | a new record has the five exercise skills plus vocabulary, all at level 0, and only the exercise skills carry counters |
| ProgressModel.FindWord | server/models/Progress.js:456 | `find` on a word list: an index holding that word, or none exactly when the word is absent |
| ProgressModel.Practised | server/models/Progress.js:408-421 | one exercise raises the level by at most 5 points, capped at 100, counts the exercise, makes the average score the rounded running mean of the old average over the earlier exercises and the new score, and stamps the practice time |
| ProgressModel.AverageScoreStaysInRange | server/models/Progress.js:415-417 | the rounded running average of scores within 0..100 stays within 0..100 |
| ProgressModel.PractiseRun | server/models/Progress.js:419-421 | k exercises, each scoring at least 50, raise the level by 5·k points, capped at 100 |
| ProgressModel.PushRecent | server/models/Progress.js:488-493 | the recent scores end with the new score and keep the last ten |
| ProgressModel.PushSession | server/models/Progress.js:503-511 | the session list ends with the new session and keeps the last 30, in order |
| ProgressModel.DailyAverage | server/models/Progress.js:516-525 | the daily average is the minutes of the last 30 days divided by 30, rounded |
| ProgressModel.DailyAverageNonNegative | server/models/Progress.js:516-525 | with non-negative durations the daily average is never negative |
| ProgressModel.NewSessionCounts | server/models/Progress.js:502-525 | the session just logged is among those the daily average counts |
| ProgressModel.OverallAccuracy | server/models/Progress.js:385-389 | the `overallAccuracy` virtual lies within 0..100.00 % and is 0 before any answer |
| ProgressModel.QuizAnswered | server/models/Progress.js:481-498 | one answer is counted as correct or incorrect; the average score is the share of correct answers as a percentage, rounded half up, and stays in 0..100; the best score never drops, and the recent scores keep the last ten |
| ProgressModel.AverageScoreMatchesAccuracy | server/models/Progress.js:484-486 | the rounded `averageScore` and the two-decimal `overallAccuracy` never differ by more than half a point |
| ProgressModel.RoundedPercentInRange | server/models/Progress.js:486 | a rounded percentage of a part no larger than the total lies within 0..100 |
| ProgressModel.WordFiled | server/models/Progress.js:453-479 | a correct answer files a word as strong once, at accuracy 100 and stamped now; a wrong one appends it as a weak word at accuracy 0 seen now, or lowers the existing weak entry by 10 (not below 0) and stamps it now; the other list is untouched; both lists stay free of repeats and `wordsMastered` counts the strong words |
| ProgressModel.OtherWeakWordsUntouched | server/models/Progress.js:465-479 | a wrong answer changes no other weak word |
| ProgressModel.WeakWordLosesTen | server/models/Progress.js:468-471 | a wrong answer on a weak word costs 10 accuracy points, floored at 0 |
| ProgressModel.StrongFilingIsIdempotent | server/models/Progress.js:453-464 | filing the same correct answer twice changes nothing the second time |
| ProgressModel.Progress.constructor | server/models/Progress.js:16-287 | a new record carries the schema's defaults: the six default skills, no lessons, percentage and points 0, all quiz counters 0 with no scores and no quiz date, empty word lists, study-time totals 0 with no sessions, and `lastActivity` now; it is valid |
| ProgressModel.Progress.UpdateSkillProgress | server/models/Progress.js:408-427 | an unknown skill changes nothing; otherwise only that skill is practised, and the time spent is added to the total, weekly and monthly minutes |
| ProgressModel.Progress.CompleteLesson | server/models/Progress.js:430-449 | the lesson leaves in-progress and is logged as completed; the total, points and percentage (capped at 100) follow |
| ProgressModel.Progress.UpdateVocabularyProgress | server/models/Progress.js:452-499 | the quiz statistics and word lists become `QuizAnswered` and `WordFiled` of the old ones, and the record stays valid |
| ProgressModel.Progress.FileWord | server/models/Progress.js:453-479 | the word lists become `WordFiled` of the old lists |
| ProgressModel.Progress.RecordQuizAnswer | server/models/Progress.js:481-498 | the quiz statistics become `QuizAnswered` of the old ones |
| ProgressModel.Progress.AddStudySession | server/models/Progress.js:502-526 | the session is pushed (the last 30 are kept), the activity is stamped and the daily average is recomputed; the weekly and monthly totals are untouched |
| UserModel.Level | server/models/User.js:135-142 | the `level` virtual lies within 1..5, is 1 exactly below 100 points and 5 exactly from 3000 |
| UserModel.LevelCountsThresholds | server/models/User.js:135-142 | the level is one more than the number of thresholds (100, 500, 1500, 3000) reached |
| UserModel.LevelMonotone | server/models/User.js:135-142 | more points never lower the level |
| UserModel.StreakAfter | server/models/User.js:168-193 | the first study day starts both streaks at 1; the next day extends the streak and raises the longest; a gap resets the streak to 1; the same day changes neither; the streak never exceeds the longest |
| UserModel.ConsecutiveDaysBuildStreak | server/models/User.js:177-184 | k consecutive study days from none give a streak and a longest streak of k |
| UserModel.SameDayKeepsStreak | server/models/User.js:189-192 | studying twice on the same day changes neither streak |
| UserModel.AcceptedParts | server/models/User.js:16-19 | two chains of word characters with single dots or hyphens between them, joined by `@` and followed by a dot and three word characters, form an accepted address |
| UserModel.SchemaEmailAcceptsPlainAddress | server/models/User.js:16-19 | the schema's email pattern accepts "ana@example.com" |
| UserModel.SchemaEmailRefusesLongEnding | server/models/User.js:16-19 | the pattern refuses "ana@example.info": the ending after the last dot must have two or three characters |
| UserModel.SchemaEmailRefusesPlus | server/models/User.js:16-19 | the pattern refuses "ana+tag@example.com": the local part holds only word characters, dots and hyphens |
| UserModel.FirstAt | server/models/User.js:16-19 | the position of the first `@`, or none exactly when there is no `@` |
| UserModel.SchemaEmailHasOneAt | server/models/User.js:16-19 | an address the pattern accepts has exactly one `@`, the one it is split at |
| UserModel.RefusedSide | server/models/User.js:16-19 | an address whose local part, free of `@`, or whose domain the pattern refuses is refused as a whole |
| UserModel.DomainHasNoAt | server/models/User.js:16-19 | the part after the `@` that the pattern accepts holds no further `@` |
| UserModel.User.constructor | server/models/User.js:31-114 | a new user has the given name, email and native language, role "user", the schema's default preferences, no languages, no achievements and zero stats |
| UserModel.User.UpdateStreak | server/models/User.js:168-193 | the stats become `StreakAfter` of the old ones |
| UserModel.User.AddAchievement | server/models/User.js:196-203 | an achievement is appended, and true returned, exactly when none with that name exists; names stay distinct |
| LessonModel.RoundedMean | server/models/Lesson.js:189-195 | the rounded running mean is the integer nearest the mean of the n values |
| LessonModel.RoundedMeanInRange | server/models/Lesson.js:189-195 | a rounded mean of values within [lo, hi] stays within [lo, hi] |
| LessonModel.AttemptAdded | server/models/Lesson.js:183-197 | an attempt is counted; a completion is counted and its score and time are folded into the rounded means; completions never exceed attempts |
| LessonModel.CompletionRate | server/models/Lesson.js:167-170 | the `completionRate` virtual is 0 with no attempts and lies within 0..100.00 % |
| LessonModel.DifficultyOf | server/models/Lesson.js:173-180 | easy exactly above 80 % completion with an average above 85; medium exactly when not easy, above 60 % and above 70; hard otherwise |
| LessonModel.DifficultyMonotone | server/models/Lesson.js:173-180 | better completion and scores never make a lesson harder |
| LessonModel.UnattemptedLessonIsHard | server/models/Lesson.js:167-180 | a lesson nobody has attempted is hard |
| LessonModel.PublishedAtAfterSave | server/models/Lesson.js:216-221 | `publishedAt` is set to now exactly when the lesson was just published and had no date; an existing date is kept |
| LessonModel.Lesson.constructor | server/models/Lesson.js:121-144 | a new lesson has zero statistics, is unpublished and has no publication date |
| LessonModel.Lesson.AddAttempt | server/models/Lesson.js:183-197 | the statistics become `AttemptAdded` of the old ones |
| LessonModel.Lesson.PreSave | server/models/Lesson.js:216-221 | `publishedAt` becomes `PublishedAtAfterSave` of the old date |
| Paging.PageOf | server/controllers/vocabularyController.js:37-47 | skip then limit: a page holds at most `limit` results, namely the results from `(page-1)·limit` onwards, in order |
| Paging.TotalPages | server/controllers/vocabularyController.js:53 | the page count is the least that covers all results; it is 0 exactly when there are no results |
| Paging.Links | server/controllers/vocabularyController.js:61-64 | `prev` exists exactly when the page is not the first and is page - 1; `next` exists exactly when the page is before the last and is page + 1 |
| Paging.NextLinkIffMoreResults | server/controllers/vocabularyController.js:53-63 | a `next` link is given exactly when the next page has results |
| Paging.EarlierPagesAreFull | server/controllers/vocabularyController.js:37-62 | before a non-empty page every page is full, and a `prev` link is given |
| Paging.FirstPagesArePrefix | server/controllers/vocabularyController.js:37-47 | the first k pages, one after another, are the first k·limit results |
| Paging.AllPagesCoverResults | server/controllers/vocabularyController.js:37-53 | walking all pages yields every result once, in order |
| VocabularyController.WhoMayModify | server/controllers/vocabularyController.js:192-199 | a word may be updated or deleted by an admin, or when it has no creator or the caller created it |
| VocabularyController.GetVocabulary | server/controllers/vocabularyController.js:7-74 | the reply's data is exactly the requested page (`PageOf`), full unless the results run out, with its count; the total is the query's; `totalPages` is the least page count covering the total; `currentPage` is the page asked for; the links are those of that page, `next` offered exactly when the next page has results |
| VocabularyController.Patched | server/controllers/vocabularyController.js:201-208 | every field the body gives is written, the creator and the learning data included; every other field and the id are kept |
| VocabularyController.PatchIsIdempotent | server/controllers/vocabularyController.js:201-208 | an empty body changes nothing, and applying the same body twice is applying it once |
| VocabularyController.PatchCanHandOverWord | server/controllers/vocabularyController.js:192-208 | a body naming another creator leaves a non-admin caller, the former creator included, unable to modify the word |
| VocabularyController.VocabularyStore.Lookup | server/controllers/vocabularyController.js:182 | `findById`: the position of the document with that id, or none exactly when there is no such document |
| VocabularyController.VocabularyStore.UpdateVocabulary | server/controllers/vocabularyController.js:170-239 | a rejected body gives 400, an unknown id 404, a forbidden caller 403 and learning data outside the schema 400, none changing anything; otherwise 200, with only that document patched; ids stay distinct |
| VocabularyController.VocabularyStore.DeleteVocabulary | server/controllers/vocabularyController.js:244-288 | an unknown id gives 404 and a forbidden caller 403, neither changing anything; otherwise 200, with only that document deactivated |
| VocabularyController.VocabularyStore.GetWordsForReview | server/controllers/vocabularyController.js:293-313 | only due words, as a prefix of the due list; without a limit, the model's at-most-20 query; with a limit, that many or all due words |
| VocabularyController.VocabularyStore.Practice | server/controllers/vocabularyController.js:318-367 | a missing boolean gives 400 and an unknown id 404; otherwise the word's learning data becomes `Reviewed`, stored with a 200 reply only when the schema accepts it; a rejected save gives 500 and changes nothing |
| VocabularyController.DeletedWordIsNeverDue | server/controllers/vocabularyController.js:265-267 | after a soft delete the word never comes up for review |
| VocabularyController.PracticeAtFourPointNineFails | server/controllers/vocabularyController.js:339-340 | a correct practice answer at mastery 4.9 produces a document the schema rejects |
| LessonController.Selected | server/controllers/lessonController.js:14-21 | the published lessons matching each given filter, in store order |
| LessonController.GetLessons | server/controllers/lessonController.js:8-40 | 400 exactly when the validators reject the query (a filter outside its list, a page below 1, a page size outside 1..50); otherwise page 1 with 10 per page by default, the listed lessons are exactly that page of the selection (`PageOf`), full unless the selection runs out, and total and page count describe the selection |
| LessonController.ListedLessonsMatch | server/controllers/lessonController.js:14-26 | every listed lesson is stored and matches the query |
| LessonController.PageNumber | server/controllers/lessonController.js:14 | the page asked for, and 1 unless the query gives one |
| LessonController.PageSize | server/controllers/lessonController.js:14 | the page size asked for, and 10 unless the query gives one |
| LessonController.SumRatingsBounds | server/controllers/lessonController.js:319 | n ratings of 1 to 5 sum to between n and 5·n |
| LessonController.RatingOf | server/controllers/lessonController.js:296-298 | the first rating by that user, or none exactly when the user has not rated |
| LessonController.Upserted | server/controllers/lessonController.js:295-316 | the user's earlier rating is replaced in place, or the new one appended; other users' ratings are kept; one rating per user and the 1..5 range are preserved |
| LessonController.RatingAgainReplaces | server/controllers/lessonController.js:300-307 | rating twice is the same as rating only the second time |
| LessonController.MeanRating | server/controllers/lessonController.js:319-320 | the average times the count is the sum of the ratings |
| LessonController.MeanRatingInRange | server/controllers/lessonController.js:319-320 | ratings of 1 to 5 average to between 1 and 5 |
| LessonController.Rated | server/controllers/lessonController.js:318-321 | after rating, the count is the number of ratings and the average is their mean |
| LessonController.LessonStore.FindPublished | server/controllers/lessonController.js:286 | the position of a published lesson with that id, or none exactly when there is none |
| LessonController.RatedKeepsValid | server/controllers/lessonController.js:295-321 | rating a lesson with 1 to 5 keeps its ratings in range, one per user and counted, and its average between 1 and 5 |
| LessonController.ApplyRating | server/controllers/lessonController.js:295-321 | the replace-or-push and the recomputed average and count give `Rated` |
| LessonController.LessonStore.RateLesson | server/controllers/lessonController.js:278-329 | a rating outside 1 to 5 or a trimmed comment over 500 characters gives 400, an unknown or unpublished lesson 404, neither changing anything; otherwise 200, with only that lesson becoming `Rated` and its average between 1 and 5; every lesson keeps its ratings in range, one per user and counted |
| ProgressController.WindowDays | server/controllers/progressController.js:22-37 | 1, 30 or 90 days for "1d", "30d" and "90d"; 7 for anything else |
| ProgressController.WindowStart | server/controllers/progressController.js:19-37 | the window starts between 90 days and 1 day before now |
| ProgressController.SessionAccuracy | server/controllers/progressController.js:158-160 | the share of correct answers as a percentage within 0..100, and 0 without answers |
| ProgressController.SessionOf | server/controllers/progressController.js:164-173 | a logged session carries the submitted counters and an accuracy within 0..100 |
| ProgressController.MergedLessons | server/controllers/progressController.js:182 | the completed lessons of both lists, none twice |
| ProgressController.MergeKeepsEarlierLessons | server/controllers/progressController.js:182 | merging keeps the earlier list as a prefix and appends only new lessons |
| ProgressController.XpAfter | server/controllers/progressController.js:216-238 | the stored level becomes the level of the XP before any bonus; a level-up happens exactly when that level exceeds the old stored level, and adds the 50-XP bonus |
| ProgressController.LevelUpWhenCrossingHundred | server/controllers/progressController.js:218-223 | with a stored level matching the XP, a level-up happens exactly when the XP crosses a multiple of 100 |
| ProgressController.StoredLevelLagsAtMostOne | server/controllers/progressController.js:218-237 | the bonus can leave the stored level at most one below the level of the new XP |
| ProgressController.BonusCanOutrunLevel | server/controllers/progressController.js:218-237 | 90 XP plus 70 levels up to 2, yet the bonus brings the XP to 210, which is level 3 |
| ProgressController.DailyRecord.Create | server/controllers/progressController.js:185-209 | the day's first record holds one session with the submitted totals and no achievements |
| ProgressController.DailyRecord.Merge | server/controllers/progressController.js:162-184 | a further session is appended, each counter grows by the submitted amount and the completed lessons are merged; the totals remain the sums over the sessions |
| ProgressController.DailyRecord.AwardXp | server/controllers/progressController.js:215-240 | the user's XP and level become those of `XpAfter`; a level-up appends one level-up achievement |
| ProgressController.RecordProgress | server/controllers/progressController.js:124-268 | 400 with nothing changed when the validators reject the body; otherwise 201, and today's record is merged into or a new one created for the user, language and day: it gains exactly the submitted session, its XP grows by the submitted XP, its completed lessons are merged with the submitted ones, and it stays consistent; a signed-in user is awarded the XP, and a level-up appends exactly one level-up achievement to the record, which is otherwise left alone |
| ProgressController.Views | server/controllers/progressController.js:521-529 | one listed achievement per stored one, in order, each with its kind, reward and earned time and the record's language and date |
| ProgressController.PrecedesIsStrictOrder | server/controllers/progressController.js:543-550 | the display comparator is a strict order |
| ProgressController.DisplayOrder | server/controllers/progressController.js:543-550 | sorting gives a permutation of the achievements |
| ProgressController.Filtered | server/controllers/progressController.js:531-540 | exactly the achievements of the category that are earned or available, as asked |
| ProgressController.StatsOf | server/controllers/progressController.js:552-559 | the total is the count; the earned count is at most that; with nothing earned, both the earned count and the XP are 0 |
| ProgressController.StatsOfAppend | server/controllers/progressController.js:552-559 | one more listed achievement adds one to the total; an unearned one leaves the earned count and the XP alone, an earned one adds one and its reward |
| ProgressController.GetAchievements | server/controllers/progressController.js:511-575 | the listing is a permutation of the filtered achievements, and its statistics are those of the listing |
| ProgressController.AchievementsInDisplayOrder | server/controllers/progressController.js:543-550 | the listing is sorted earned first, newest first |
| ProgressController.AvailableEarnsNothing | server/controllers/progressController.js:538-559 | asking for available achievements reports none earned and no XP |
| AuthController.NativeLanguageOrDefault | server/controllers/authController.js:45 | the given native language, or English when it is missing or empty |
| AuthController.Created | server/models/User.js:5-19 | `User.create` stores an account exactly when the document has the required `name` and an email the schema's pattern accepts, and the account carries the given email, name and native language with role "user" |
| AuthController.RegisterBodyIsRefused | server/controllers/authController.js:40-46 | the body `register` builds, which has no `name`, is refused by `User.create`, where the same body with a name is stored |
| AuthController.UserDirectory.Register | server/controllers/authController.js:16-69 | as written: a body the validators reject, or an email already registered, gives 400; any other request gives 500, because the created document has no `name`; nothing is ever stored |
| AuthController.UserDirectory.RegisterWithName | server/controllers/authController.js:16-69 | as intended: 400 for a rejected body or a registered email, changing nothing; 500 with nothing stored when the schema's email pattern refuses the address; otherwise 201, with one account of role "user" appended under the body's name; emails stay distinct |
| AuthController.Chosen | server/controllers/authController.js:180-185 | a profile field changes only when given and not empty |
| AuthController.MergeIsIdempotent | server/controllers/authController.js:186 | sending the same preferences twice is sending them once |
| AuthController.UpdateProfile | server/controllers/authController.js:169-205 | 400 with nothing changed when the validators reject the body; otherwise 200, a given non-empty native language is written, given preferences are spread over the old ones, and the name never changes, since strict mode drops `firstName` and `lastName` |
| AuthController.LanguageIndex | server/controllers/authController.js:273 | `find` by language: the entry of that language, or none exactly when it is not learnt |
| AuthController.WithoutLanguage | server/controllers/authController.js:315-318 | every entry of the language goes and all others stay, in order; an unlisted language changes nothing |
| AuthController.RemovalKeepsLanguagesDistinct | server/controllers/authController.js:315-318 | removing a language keeps the learnt languages distinct |
| AuthController.AddLearningLanguage | server/controllers/authController.js:257-300 | 400 with nothing changed when the language is not one of the nine the route accepts, a given level is not one of the three, or the language is already listed; otherwise 200 and one entry is appended (level beginner by default); languages stay distinct and every new entry has an accepted language and level |
| AuthController.RemoveLearningLanguage | server/controllers/authController.js:309-340 | the languages become `WithoutLanguage` of the old list |
| AuthController.WithLevel | server/controllers/authController.js:361-370 | none exactly when the language is not listed; otherwise only its first entry gets the new level |
| AuthController.OnlyThatLanguageChanges | server/controllers/authController.js:361-370 | with distinct languages, exactly the entry of that language changes |
| AuthController.UpdateLearningLanguageLevel | server/controllers/authController.js:345-385 | 400 and no change for a level outside the three the route accepts; 404 and no change for an unlisted language; otherwise 200 and `WithLevel` |
| AuthController.NewerIsStrictOrder | server/controllers/authController.js:401 | the newest-first comparator is a strict order |
| AuthController.GetAchievements | server/controllers/authController.js:391-410 | the user's achievements are permuted in place into newest-first order; the reply carries them all and the first five |
| AuthController.RecentAreNewest | server/controllers/authController.js:400-402 | no achievement left out of the five recent ones is newer than one shown |
| AuthMiddleware.BearerToken | server/middleware/auth.js:7-18 | a token is found exactly when the header starts with "Bearer ", and the header is that prefix plus the token |
| AuthMiddleware.BearerTokenRoundTrip | server/middleware/auth.js:10-18 | any token read back from its "Bearer" header is that token |
| AuthMiddleware.Authenticate | server/middleware/auth.js:5-71 | 401 without a bearer header; TOKEN_EXPIRED or TOKEN_INVALID for a bad token; passes exactly when the token names an existing user who is not banned, and attaches that user; rejects only with 401, 403 or 500 |
| AuthMiddleware.BannedUserIsForbidden | server/middleware/auth.js:34-40 | a banned user gets 403 |
| AuthMiddleware.Authorize | server/middleware/auth.js:74-92 | 401 without a user; otherwise passes exactly when the user's role is listed, and 403 if not |
| AuthMiddleware.ResourceOwner | server/middleware/auth.js:110 | the route parameter when it is truthy, else the body field |
| AuthMiddleware.AuthorizeOwnerOrAdmin | server/middleware/auth.js:95-121 | 401 without a user; passes exactly for an admin or the owner of the resource; 403 otherwise |
| AuthMiddleware.ParamTakesPrecedence | server/middleware/auth.js:110-119 | a caller who owns the body's id but not the parameter's is refused |
| AuthMiddleware.OptionalAuth | server/middleware/auth.js:124-152 | never rejects, and attaches no user without a bearer header |
| AuthMiddleware.OptionalAuthAgreesWithAuthenticate | server/middleware/auth.js:124-152 | attaches exactly the user that `authenticate` would let in, and nobody otherwise |
| AuthContext.InitialState | client/src/contexts/AuthContext.js:68-72 | nobody is signed in, there is no error, and the app is loading |
| AuthContext.Reduce | client/src/contexts/AuthContext.js:18-65 | each action's effect: a login sets the user and clears loading and error; a logout forgets the user; errors set or clear; an unknown action changes nothing |
| AuthContext.UpdateUserMerges | client/src/contexts/AuthContext.js:42-47 | UPDATE_USER merges the changes into the user, keeping untouched fields and the loading flag, and clears the error |
| AuthContext.LoginThenLogout | client/src/contexts/AuthContext.js:26-40 | logging in and then out ends where logging out alone does |
| LearningContext.InitialState | client/src/contexts/LearningContext.js:105-117 | empty lists, nothing loaded, no error, and four loading flags all off |
| LearningContext.MergeMatching | client/src/contexts/LearningContext.js:78-84 | same length; entries with the payload's id are merged with it, all others kept |
| LearningContext.MergeMatchingIdempotent | client/src/contexts/LearningContext.js:78-84 | applying the same update twice is applying it once |
| LearningContext.Reduce | client/src/contexts/LearningContext.js:25-102 | the reducer fails (throws) exactly on UPDATE_LESSON_PROGRESS without a loaded `lessonProgress` |
| LearningContext.SetLoadingTouchesOneFlag | client/src/contexts/LearningContext.js:27-31 | SET_LOADING changes one loading flag and nothing else |
| LearningContext.SetActionsReplaceTheirSlice | client/src/contexts/LearningContext.js:33-59 | each SET action replaces its slice and clears that slice's loading flag |
| LearningContext.VocabularyActions | client/src/contexts/LearningContext.js:72-84 | ADD_VOCABULARY appends; UPDATE_VOCABULARY merges into the entries with the payload's id only |
| LearningContext.UpdateLessonProgressMerges | client/src/contexts/LearningContext.js:60-70 | once a lesson-progress list is loaded, UPDATE_LESSON_PROGRESS keeps its length and order, merges the payload into the entries with its `lessonId`, keeps all others, and changes no other part of the state |
| LearningContext.ErrorAndUnknownActions | client/src/contexts/LearningContext.js:86-100 | SET_ERROR records the error and clears its loading flag; CLEAR_ERROR only forgets the error; an unknown action changes nothing |
| LessonCatalogue.Get | client/src/data/lessons.js:252 | `obj[key]`: the first entry with that key, or undefined exactly when there is none |
| LessonCatalogue.LessonsByLanguage | client/src/data/lessons.js:251-263 | nothing for an unknown language; for 'all', the beginner, intermediate and advanced lessons in that order; else that level's lessons |
| LessonCatalogue.AllIsTheThreeLevels | client/src/data/lessons.js:254-260 | 'all' lists exactly the lessons of the three named levels |
| LessonCatalogue.AvailableLanguages | client/src/data/lessons.js:266-268 | the catalogue's languages in order |
| LessonCatalogue.AvailableMeansListed | client/src/data/lessons.js:251-268 | a language is available exactly when the catalogue has lessons for it |
| LessonCatalogue.FirstWithId | client/src/data/lessons.js:274 | the lesson `find` returns: one with that id such that no earlier lesson has it, or none exactly when no lesson has it |
| LessonCatalogue.FirstWithIdAppend | client/src/data/lessons.js:272-276 | searching two lists in turn is searching their concatenation |
| LessonCatalogue.FindInLevels | client/src/data/lessons.js:273-276 | the first lesson with that id in the language's levels taken in order (`FirstWithId` of their concatenation), or none exactly when no level has one |
| LessonCatalogue.FindById | client/src/data/lessons.js:271-279 | the first lesson with that id across all languages and levels (`FirstWithId` of all lessons in order), or none exactly when there is none |
| LessonCatalogue.GetLessonById | client/src/data/lessons.js:271-279 | the nested scan with early return finds what `FindById` specifies |
| RegisterForm.EmailExamples | client/src/pages/Register.js:63 | the unanchored email pattern accepts "a@b.c" and text merely containing an address, and rejects "a@b" and "@b.c" |
| RegisterForm.ErrorsForDetermined | client/src/pages/Register.js:50-80 | the per-field description of the errors fixes the whole error map: a form has exactly one set of errors |
| RegisterForm.CollectErrors | client/src/pages/Register.js:50-80 | an error is recorded for each field exactly when its check fails, with the required or invalid message as appropriate, and for no other field |
| RegisterForm.WithField | client/src/pages/Register.js:41-47 | an input change sets the named field and leaves the others alone |
| RegisterForm.RegisterPage.constructor | client/src/pages/Register.js:6-16 | the form starts empty, with English, Spanish and beginner preselected, and no errors |
| RegisterForm.RegisterPage.HandleInputChange | client/src/pages/Register.js:34-48 | the field is set, and its error is cleared only if one is shown |
| RegisterForm.RegisterPage.ValidateForm | client/src/pages/Register.js:50-83 | `formErrors` becomes the form's errors, one message for each failing field and no other entry; the form is accepted exactly when every check passes, and exactly when no error is recorded |
| VocabularyPage.FilterChainIsOneFilter | client/src/pages/Vocabulary.js:104-124 | the chain of three filters keeps exactly the words passing every active filter, in order |
| VocabularyPage.FilteredIsOrderedSelection | client/src/pages/Vocabulary.js:104-124 | the shown list is an ordered subsequence holding exactly the listed words that pass |
| VocabularyPage.NoFilterShowsEverything | client/src/pages/Vocabulary.js:105-121 | with no search and both filters on 'all', the whole list shows |
| VocabularyPage.LowerIdempotent | client/src/pages/Vocabulary.js:109 | lower-casing twice is lower-casing once |
| VocabularyPage.FilterCongruent | client/src/pages/Vocabulary.js:108-120 | filters that agree on every word select the same list |
| VocabularyPage.SearchIgnoresCase | client/src/pages/Vocabulary.js:107-113 | searching for a term or its lower-case form shows the same words |
| VocabularyPage.AddWord | client/src/pages/Vocabulary.js:126-135 | the draft is appended with a fresh id, not mastered and reviewed today; the earlier words are kept |
| VocabularyPage.SubmitAdd | client/src/pages/Vocabulary.js:126-145 | the word is added and the form reset to its empty draft |
| VocabularyPage.EditWord | client/src/pages/Vocabulary.js:147-154 | every word with the edited id is replaced, and the others are kept in place |
| VocabularyPage.EditKeepsIdsAndIsIdempotent | client/src/pages/Vocabulary.js:147-154 | editing keeps every id in place, and saving the same edit twice changes nothing more |
| VocabularyPage.DeleteRemovesOnlyThatId | client/src/pages/Vocabulary.js:156-160 | exactly the words with that id go; the others stay in order; an absent id changes nothing |
| VocabularyPage.ToggleMastered | client/src/pages/Vocabulary.js:162-166 | only the words with that id flip their mastered flag |
| VocabularyPage.ToggleTwiceRestores | client/src/pages/Vocabulary.js:162-166 | toggling twice restores the list |
| VocabularyPage.CountsAddUp | client/src/pages/Vocabulary.js:251-260 | the mastered and learning counts add up to the list's length |
| VocabularyPage.AddedWordIsLearning | client/src/pages/Vocabulary.js:126-135 | a new word adds one to the learning count and nothing to the mastered count |
| Flashcards.AfterAnswer | client/src/pages/Flashcards.js:46-51 | an answer counts as correct or incorrect; the streak grows by one or resets to 0; the total is kept |
| Flashcards.ReplayCounts | client/src/pages/Flashcards.js:46-51 | after a run of answers, correct and incorrect count the answers of each kind, and the streak is the final run of correct answers |
| Flashcards.StreakWithinCorrect | client/src/pages/Flashcards.js:46-51 | the streak never exceeds the correct answers |
| Flashcards.CountsSplit | client/src/pages/Flashcards.js:46-51 | every answer is counted once, as correct or as incorrect |
| Flashcards.SessionOverAfterWholeDeck | client/src/pages/Flashcards.js:39-61 | answering every card of a fresh session leaves one counted answer per card |
| Flashcards.CompletionAccuracy | client/src/pages/Flashcards.js:103-104 | the completion percentage lies within 0..100: 100 with no wrong answers, 0 with no right ones |
| Flashcards.FlashcardSession.constructor | client/src/pages/Flashcards.js:6-15 | the session starts with no deck, at the first card, unflipped, with zero counters |
| Flashcards.FlashcardSession.Load | client/src/pages/Flashcards.js:21-33 | a loaded deck replaces the deck and sets the total; a failed load changes nothing |
| Flashcards.FlashcardSession.CardFlip | client/src/pages/Flashcards.js:35-37 | flipping toggles the card |
| Flashcards.FlashcardSession.HandleAnswer | client/src/pages/Flashcards.js:39-61 | the current word and the answer are reported, the counters advance, and the session moves to the next card unflipped or ends after the last |
| Flashcards.FlashcardSession.Skip | client/src/pages/Flashcards.js:235-236 | skipping is answering wrongly |
| Flashcards.FlashcardSession.Restart | client/src/pages/Flashcards.js:63-67 | the same deck starts again from the first card with cleared counters |
| Flashcards.FlashcardSession.NewSession | client/src/pages/Flashcards.js:69-74 | counters are cleared and the deck reloaded from the first card; the total is 0 if the reload fails |
| Flashcards.FlashcardSession.Accuracy | client/src/pages/Flashcards.js:103-104 | the completion screen's accuracy lies within 0..100 |

## Findings

| source | as written | input that shows it | evidently intended | confidence | as-written member | corrected member |
|---|---|---|---|---|---|---|
| server/controllers/authController.js:27-46 | `register` reads `firstName` and `lastName` and passes them, with no `name`, to `User.create`; the User schema declares only a required `name` (server/models/User.js:5-10), so the create fails validation and the catch replies 500 | a valid body `{ name: "Ana", email: "ana@example.com", password: "Secret12" }` for a new address | the body's `name`, which the route requires, is stored, and the reply is 201 | not executed | AuthController.UserDirectory.Register | AuthController.UserDirectory.RegisterWithName |

## Left out

- Floating point:
  - Mastery is an integer count of tenths.
  - Floating-point drift is therefore not modelled. In IEEE doubles, repeated `+= 0.2` drifts from the exact tenths:
    - ten correct answers give 1.9999999999999998, which falls in the 3-day bucket, where the model has 2.0 and 7 days;
    - after 15 and 20 correct answers mastery is 3.0000000000000004 and 4.000000000000001, so `masteryStatus` reads 'expert' there, where the model reads 'advanced' and 'expert' only by its exact-value switch at 3 and 4;
    - the 25th correct answer gives 5.000000000000002, above the schema's `max: 5`, so `practice` replies 500 and stores nothing, where `CorrectRun` reaches exactly 5.0 and the save succeeds.
  - `toFixed(2)` is read back as an exact count of hundredths.
  - Response-time and rating averages are exact reals.
  - ProgressModel.QuizAnswered: the average score is `RoundDiv(100 * correct, total)` on exact integers. As written, `Math.round((totalCorrect / total) * 100)` (server/models/Progress.js:486) rounds the double: 29 correct of 200 gives 14.499999999999998 and so 14, where the model gives 15.
  - ProgressController.SessionAccuracy: an exact real. As written, `(correct / (correct + incorrect)) * 100` (server/controllers/progressController.js:158-160) is a double: 7 correct of 100 gives 7.000000000000001.
  - ProgressModel.Practised: skill levels are integer tenths, and an improvement of `score / 10` points is `score` tenths. As written the level is a double: scores 1 and 2 give 0.1 + 0.2 = 0.30000000000000004, where the model has exactly 3 tenths.
  - ProgressModel.Progress.CompleteLesson: the percentage is exactly the number of completed lessons, capped at 100. As written, `Math.min(100, (totalCompleted / 100) * 100)` (server/models/Progress.js:448) drifts for some counts: 7 completed lessons give 7.000000000000001 and 29 give 28.999999999999996; 14, 28 and 55 to 58 drift likewise, above or below the count.
- Dates:
  - A `Date` is an integer count of milliseconds.
  - `setDate(getDate() + n)` is treated as adding n·86400000; daylight-saving shifts are ignored.
  - "Now", "today" and the client's `Date.now()` id are parameters.
- Strings:
  - `toLowerCase` is modelled on ASCII letters only.
  - String length counts characters, not UTF-16 units.
  - `Register`'s `email` is the address as the route's `normalizeEmail()` and the schema's `lowercase` leave it (server/routes/auth.js:17-19, server/models/User.js:15), so equal addresses are equal strings and `EmailTaken` compares them exactly; the normalisation itself is not modelled.
- Cryptography: `jwt.verify` is a parameter returning the decoded user id or the error kind; bcrypt hashing and comparison are not modelled.
- MongoDB:
  - Queries are modelled as selections from an in-memory store, in store order.
  - `sort` options on queries, indexes, `populate`, `save` and the errors a database call can raise are not modelled.
  - Every handler's catch-all 500 reply is left out, except in `authenticate`, where it is modelled.
- Validation:
  - Every modelled handler that reads `validationResult` has its 400 path. The validators' rules are modelled where they are a closed list or a range: the filters, page and page size in `GetLessons`, the rating and comment checks in `RateLesson`, the nine languages and three levels in `AddLearningLanguage`, and the three levels in `UpdateLearningLanguageLevel`. Elsewhere the verdict is a `requestValid` parameter, in `Register`, `RegisterWithName`, `UpdateProfile`, `RecordProgress` and `UpdateVocabulary`; their checks (email syntax, password strength, name and native-language lengths, study goal 5-180, reminder time HH:MM, theme) are not modelled.
  - No route mounts `recordProgress` (server/routes/progress.js sends `POST /` to `updateProgress`), so no validators run in front of it and as written its verdict is always "valid"; the parameter is kept so that the handler's 400 branch is modelled.
  - `PageNumber` and `PageSize` require the bounds that `GetLessons` has already checked. A page or page size that is not an integer at all is not modelled.
  - Mongoose schema validation is modelled where this model meets it: the mastery bound on practice and on an update's learning data, and the User schema's required `name` and email `match` in `Created`. The email pattern refuses addresses the route's `isEmail()` accepts, such as "ana@example.info" and "ana+tag@example.com"; `isEmail()` itself is not modelled, so those addresses reach `RegisterWithName` only when `requestValid` holds, and it then replies 500.
  - The comment that `RateLesson` checks and stores is the trimmed one: the route's `trim()` sanitizer rewrites the body before the length check and before the handler reads it.
- recordProgress schema:
  - `recordProgress` and the progress `getAchievements` use a day-record shape (`user`, `date`, `sessions`, `totalSessions`, `achievements` with `type` and `earnedAt`, `completedLessons`).
  - server/models/Progress.js does not declare that shape; `DailyRecord` models the shape the controller uses.
- recordProgress methods: the controller calls `progress.updateStreak()` and `progress.checkAchievements()`, which server/models/Progress.js does not define, so both calls are left out.
- ProgressController.RecordProgress models what the controller evidently intends, not what it does against server/models/Progress.js as written:
  - a new record is created without the schema's required `userId` (server/models/Progress.js:4-8), so `Progress.create` fails validation and the reply is 400;
  - a call that gets past that reaches the undefined `updateStreak()` or `checkAchievements()` and replies 500, in the second case after the user's XP has already been saved;
  - so as written no call replies 201.
- XP fields: the user's `xp` and stored `level`, which `recordProgress` writes, are not User schema fields (`level` there is the points-based virtual). `XpAccount` holds the two fields the controller reads and writes.
- Level-up achievement: its title, description and icon strings are not built; the achievement records the kind, the level, the bonus and the time.
- Banned role: "banned" is not one of the User schema's roles, but `authenticate` checks for it, and the model keeps the check.
- Lesson ratings: the Lesson schema has no `ratings`, `averageRating` or `totalRatings`. `LessonRecord` carries them as `rateLesson` uses them.
- LessonController.LessonStore.RateLesson models the handler's intent: as written, `lesson.ratings` is undefined on a found lesson, so `findIndex` throws and the route's `asyncHandler` passes the error on (the error middleware is not part of this model) instead of replying 200.
- Other endpoints:
  - auth: login, logout, token refresh, password change, user statistics, preference update and account deletion;
  - vocabulary: single-word fetch, creation, statistics and quizzes;
  - lessons: the fetch, search, popular, create, update, delete, progress and statistics endpoints;
  - progress: the overview, statistics and leaderboard aggregates.
- Progress statistics: `weeklyConsistency` and the Progress model's static queries (leaderboard, language statistics) are not modelled.
- Client requests and rendering:
  - Register's `handleSubmit` and every page's rendering are not modelled.
  - Flashcards' asynchronous load is modelled as its completed result (a deck or a failure).
  - The progress request an answer sends is returned to the caller instead of being sent.
- Lesson catalogue: `lessonsData` is a parameter, so the lessons' texts are not transcribed; the lookups are modelled on any catalogue of that shape.
- Payloads: JSON requests and replies are reduced to the fields the core reads or decides.
- Default arguments: every modelled operation takes all its arguments explicitly; a caller that leaves one out is modelled by passing the default.
  - LessonModel.Lesson.AddAttempt: `completed = false`, `score = 0`, `timeSpent = 0` (server/models/Lesson.js:183) are not modelled.
  - ProgressModel.Progress.CompleteLesson: `attempts = 1` (server/models/Progress.js:430) is not modelled.
  - ProgressModel.Progress.AddStudySession: `activities = []` (server/models/Progress.js:502) is not modelled.
  - ProgressController.RecordProgress: `completedLessons = []` and `xpGained = 0` (server/controllers/progressController.js:143-144) are not modelled; a `Submission` always carries both.
- Preferences:
  - The User schema types the preferences (a numeric `studyGoal` defaulting to 15, a boolean `enableReminders`, `theme` one of light, dark and auto); the model keeps every preference as a string, and `DefaultPreferences` holds their defaults as strings.
  - AuthController.UpdateProfile: strict mode drops preference keys the schema does not declare, and `runValidators` turns a stored value the schema rejects into a 500; the model spreads any given keys and does not model either.
- AuthController.AddLearningLanguage: after saving, the handler also creates a progress document for the new language (server/controllers/authController.js:285-289); that create, and the 500 it may raise after the language is already saved, are not modelled.
- Common.SortBy: the sort is an insertion sort that keeps equal elements in order, but stability is not stated or proved; only the permutation and the order are.
- VocabularyController.Patched: of the fields an update body may name, `word`, `translation`, `language`, `addedBy`, `isActive` and the learning data are modelled; the others (level, category, examples, audio) are not read by any rule modelled here. A body setting `addedBy` to null is not modelled.
- VocabularyController.VocabularyStore.UpdateVocabulary and DeleteVocabulary: the routes put `authorize('admin')` in front of both (server/routes/vocabulary.js:150, 174), so a non-admin is refused with 403 before the handler runs, and the creator branch of `WhoMayModify` only ever meets admins. The handlers' own rule is modelled as written.
- VocabularyController.GetVocabulary: requires `page >= 1` and `limit >= 1`. The handler never reads the route's validation result, so the validators block nothing: `page=0` makes a negative `skip`, which the catch turns into a 500; `limit=0` means no limit, with `totalPages` Infinity (NaN when there are no results); neither is modelled. Page sizes above 100 are served, as in the model. The defaults `page = 1` and `limit = 20` are not modelled.
- Flashcards.FlashcardSession.Load: requires the session to be at its first card, as it is when the page mounts or a new session starts; a load arriving mid-session is not modelled.
