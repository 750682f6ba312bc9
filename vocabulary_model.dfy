/** The spaced-repetition scheduler of server/models/Vocabulary.js: the
    learning data a vocabulary document carries, its `accuracyRate` and
    `masteryStatus` virtuals, the review update `updateLearningData`, the
    next-review table `calculateNextReview`, the pre-save default and the
    `getDueForReview` query.

    Mastery is counted in tenths (the source adds 0.2 and subtracts 0.1), time
    in milliseconds, and "now" is a parameter. */
module VocabularyModel {
  import opened Common

  const MsPerDay: int := 86400000

  /** The schema's `max: 5` for masteryLevel, in tenths. */
  const SchemaMaxMastery: int := 50

  /** `getDueForReview` caps a session at 20 words. */
  const DueForReviewLimit: nat := 20

  /** `learningData` of a vocabulary document (mastery in tenths). */
  datatype LearningData = LearningData(
    timesReviewed: nat,
    correctAnswers: nat,
    incorrectAnswers: nat,
    lastReviewed: Option<int>,
    nextReview: Option<int>,
    mastery: int,
    averageResponseTime: real)

  /** The schema defaults of a new document. */
  const FreshLearningData := LearningData(0, 0, 0, None, None, 0, 0.0)

  /** A stored vocabulary document, as far as the core reads it. */
  datatype VocabularyDoc = VocabularyDoc(
    id: string,
    word: string,
    translation: string,
    language: string,
    addedBy: Option<string>,
    isActive: bool,
    learning: LearningData)

  /** What the review update keeps true: every review is counted once as
      correct or incorrect, mastery stays in [0, 5.1] (not [0, 5], see
      `NextMastery`), and a reviewed item is due strictly later. */
  predicate Consistent(d: LearningData)
  {
    && d.timesReviewed == d.correctAnswers + d.incorrectAnswers
    && 0 <= d.mastery <= SchemaMaxMastery + 1
    && (d.lastReviewed.Some? ==> d.nextReview.Some? && d.nextReview.value > d.lastReviewed.value)
  }

  /** What the schema's validators accept for masteryLevel (`min: 0`, `max: 5`). */
  predicate SchemaValid(d: LearningData)
  {
    0 <= d.mastery <= SchemaMaxMastery
  }

  // ---------------------------------------------------------------- virtuals

  /** The `accuracyRate` virtual in hundredths of a percent: 0 before any
      answer, otherwise the percentage of correct answers rounded to two
      decimals. */
  function AccuracyRate(d: LearningData): (r: int)
    ensures 0 <= r <= 10000
    ensures d.correctAnswers == 0 ==> r == 0
    ensures d.incorrectAnswers == 0 && d.correctAnswers > 0 ==> r == 10000
  {
    var total := d.correctAnswers + d.incorrectAnswers;
    var r := PercentHundredths(d.correctAnswers, total);
    assert total > 0 ==> (d.correctAnswers == 0 ==> r == 0) && (d.incorrectAnswers == 0 ==> r == 10000) by {
      if d.correctAnswers == 0 && total > 0 {
        RoundDivWithin(0, total, 0, 0);
      }
      if d.incorrectAnswers == 0 && total > 0 {
        RoundDivWithin(10000 * total, total, 10000, 10000);
      }
    }
    r
  }

  /** `calculateNextReview`'s test `parseFloat(accuracyRate) / 100 > 0.8`. */
  predicate HighAccuracy(d: LearningData)
  {
    AccuracyRate(d) > 8000
  }

  /** Because the rate is rounded to two decimals first, the long interval
      needs correct/total >= 0.80005, not merely > 0.8. */
  lemma HighAccuracyExactly(d: LearningData)
    ensures HighAccuracy(d) <==>
      d.correctAnswers + d.incorrectAnswers > 0
      && 20000 * d.correctAnswers >= 16001 * (d.correctAnswers + d.incorrectAnswers)
  {
    var c, t := d.correctAnswers, d.correctAnswers + d.incorrectAnswers;
    var r := AccuracyRate(d);
    if t > 0 {
      assert 2 * t * r - t <= 20000 * c < 2 * t * r + t;
      if r > 8000 {
        assert 2 * t * r >= 2 * t * 8001 by { MulMonotone(2 * t, 8001, r); }
      }
      if 20000 * c >= 16001 * t {
        assert 2 * t * r + t > 16001 * t;
        PositiveFactor(t, 2 * r - 16000);
      }
    }
  }

  lemma MulMonotone(a: int, x: int, y: int)
    requires a >= 0 && x <= y
    ensures a * x <= a * y
  {
  }

  /** 80001 correct out of 100000 is above 0.8, but its rate reads "80.00". */
  lemma RatioJustAboveFourFifthsIsNotHigh()
    ensures var d := FreshLearningData.(timesReviewed := 100000, correctAnswers := 80001, incorrectAnswers := 19999);
      5 * d.correctAnswers > 4 * (d.correctAnswers + d.incorrectAnswers) && !HighAccuracy(d)
  {
    var d := FreshLearningData.(timesReviewed := 100000, correctAnswers := 80001, incorrectAnswers := 19999);
    HighAccuracyExactly(d);
  }

  datatype MasteryStatus = New | Learning | Familiar | Known | Mastered | Expert

  /** The whole level a named status stands for (Expert: anything else). */
  function StatusRank(s: MasteryStatus): nat
  {
    match s
    case New => 0
    case Learning => 1
    case Familiar => 2
    case Known => 3
    case Mastered => 4
    case Expert => 5
  }

  /** The `masteryStatus` virtual: exact equality with 0, 1, 2, 3 or 4 names a
      status; every other level, fractional ones included, is `Expert`. */
  function MasteryStatusOf(mastery: int): (s: MasteryStatus)
    ensures s != Expert <==> mastery == 0 || mastery == 10 || mastery == 20 || mastery == 30 || mastery == 40
    ensures s != Expert ==> mastery == 10 * StatusRank(s)
  {
    if mastery == 0 then New
    else if mastery == 10 then Learning
    else if mastery == 20 then Familiar
    else if mastery == 30 then Known
    else if mastery == 40 then Mastered
    else Expert
  }

  /** A single correct answer from a new word already reads as `Expert`. */
  lemma OneCorrectAnswerReadsExpert()
    ensures MasteryStatusOf(NextMastery(0, true)) == Expert
  {
  }

  // ------------------------------------------------------- the review update

  /** Mastery after one answer: +0.2 while below 5 (so 4.9 becomes 5.1),
      -0.1 floored at 0 while above 0. */
  function NextMastery(m: int, correct: bool): (r: int)
    ensures correct ==> (r == m + 2 <==> m < SchemaMaxMastery) && (r == m <==> m >= SchemaMaxMastery)
    ensures !correct ==> r == (if m > 0 then m - 1 else m)
    ensures 0 <= m <= SchemaMaxMastery + 1 ==> 0 <= r <= SchemaMaxMastery + 1
  {
    if correct then
      if m < SchemaMaxMastery then m + 2 else m
    else
      if m > 0 then Max(0, m - 1) else m
  }

  /** The upper bound is a guard, not a clamp: 4.9 and a correct answer give
      5.1, which the schema's `max: 5` refuses. */
  lemma MasteryOvershootsSchemaMax()
    ensures NextMastery(49, true) == 51 > SchemaMaxMastery
  {
  }

  /** The `calculateNextReview` table: 1 day below mastery 1, then 3/1, 7/3,
      14/7 and 30/14 days for [1,2), [2,3), [3,4) and 4 upwards, the larger
      value when accuracy is high. */
  function IntervalDays(mastery: int, high: bool): (days: nat)
    ensures 1 <= days <= 30
    ensures mastery < 10 ==> days == 1
    ensures days == 1 || days == 3 || days == 7 || days == 14 || days == 30
  {
    if mastery < 10 then 1
    else if mastery < 20 then (if high then 3 else 1)
    else if mastery < 30 then (if high then 7 else 3)
    else if mastery < 40 then (if high then 14 else 7)
    else (if high then 30 else 14)
  }

  lemma IntervalMonotoneInMastery(m1: int, m2: int, high: bool)
    requires m1 <= m2
    ensures IntervalDays(m1, high) <= IntervalDays(m2, high)
  {
  }

  lemma IntervalMonotoneInAccuracy(m: int)
    ensures IntervalDays(m, false) <= IntervalDays(m, true)
    ensures m >= 10 ==> IntervalDays(m, false) < IntervalDays(m, true)
  {
  }

  /** Low accuracy costs exactly one bucket: between mastery 1 and 5 the
      low-accuracy interval is the high-accuracy interval one level lower. */
  lemma LowAccuracyIsOneBucketDown(m: int)
    requires 10 <= m < 50
    ensures IntervalDays(m, false) == IntervalDays(m - 10, true)
  {
  }

  /** Bucket edges belong to the upper bucket. */
  lemma BucketEdgesAreClosedBelow()
    ensures IntervalDays(10, true) == 3 && IntervalDays(20, true) == 7
    ensures IntervalDays(30, true) == 14 && IntervalDays(40, true) == 30
    ensures IntervalDays(9, true) == 1 && IntervalDays(39, true) == 14
  {
  }

  /** The instant `calculateNextReview` stores: now plus the interval. */
  function NextReviewAt(d: LearningData, now: int): (t: int)
    ensures now + MsPerDay <= t <= now + 30 * MsPerDay
  {
    now + IntervalDays(d.mastery, HighAccuracy(d)) * MsPerDay
  }

  /** `updateLearningData(correct, responseTime)` at time `now`, on values. */
  function Reviewed(d: LearningData, correct: bool, responseTime: real, now: int): (r: LearningData)
    ensures r.timesReviewed == d.timesReviewed + 1
    ensures r.correctAnswers == d.correctAnswers + (if correct then 1 else 0)
    ensures r.incorrectAnswers == d.incorrectAnswers + (if correct then 0 else 1)
    ensures r.mastery == NextMastery(d.mastery, correct)
    ensures r.averageResponseTime * (r.timesReviewed as real)
            == d.averageResponseTime * (d.timesReviewed as real) + responseTime
    ensures r.lastReviewed == Some(now)
    ensures r.nextReview == Some(NextReviewAt(r, now))
    ensures r.nextReview.value > now
    ensures Consistent(d) ==> Consistent(r)
  {
    var partial := Answered(d, correct, responseTime, now);
    partial.(nextReview := Some(NextReviewAt(partial, now)))
  }

  /** The first half of `updateLearningData`: everything but the new
      next-review date. */
  function Answered(d: LearningData, correct: bool, responseTime: real, now: int): LearningData
  {
    var n := d.timesReviewed + 1;
    var counted := if correct
      then d.(correctAnswers := d.correctAnswers + 1)
      else d.(incorrectAnswers := d.incorrectAnswers + 1);
    counted.(timesReviewed := n, lastReviewed := Some(now),
             mastery := NextMastery(d.mastery, correct),
             averageResponseTime := RunningMean(d.averageResponseTime, d.timesReviewed, responseTime))
  }

  /** The mean of `count` values averaging `mean`, with `x` added. */
  function RunningMean(mean: real, count: nat, x: real): (r: real)
    ensures r * ((count + 1) as real) == mean * (count as real) + x
  {
    (mean * (count as real) + x) / ((count + 1) as real)
  }

  /** Reviews are never idempotent: the count always moves. */
  lemma ReviewIsNotIdempotent(d: LearningData, correct: bool, rt: real, now: int)
    ensures Reviewed(Reviewed(d, correct, rt, now), correct, rt, now) != Reviewed(d, correct, rt, now)
  {
  }

  /** A run of reviews, all at the same instant. */
  function ReviewAll(d: LearningData, answers: seq<bool>, now: int): LearningData
    decreases |answers|
  {
    if answers == [] then d
    else ReviewAll(Reviewed(d, answers[0], 0.0, now), answers[1..], now)
  }

  function AllCorrect(k: nat): (s: seq<bool>)
    ensures |s| == k && forall i :: 0 <= i < k ==> s[i]
  {
    if k == 0 then [] else [true] + AllCorrect(k - 1)
  }

  /** k correct answers in a row from a word's defaults (k <= 25) reach mastery
      0.2k with no wrong answer. */
  lemma {:induction false} CorrectRun(k: nat, now: int)
    requires k <= 25
    ensures var d := ReviewAll(FreshLearningData, AllCorrect(k), now);
      d.mastery == 2 * k && d.correctAnswers == k && d.incorrectAnswers == 0 && d.timesReviewed == k
      && (k > 0 ==> d.nextReview == Some(now + IntervalDays(2 * k, true) * MsPerDay))
  {
    if k > 0 {
      CorrectRun(k - 1, now);
      var before := ReviewAll(FreshLearningData, AllCorrect(k - 1), now);
      ReviewAllSnoc(FreshLearningData, AllCorrect(k - 1), true, now);
      assert AllCorrect(k) == AllCorrect(k - 1) + [true] by {
        AllCorrectSnoc(k);
      }
      var d := Reviewed(before, true, 0.0, now);
      assert AccuracyRate(d) == 10000;
    }
  }

  lemma {:induction false} AllCorrectSnoc(k: nat)
    requires k > 0
    ensures AllCorrect(k) == AllCorrect(k - 1) + [true]
  {
    if k > 1 {
      AllCorrectSnoc(k - 1);
      assert [true] + (AllCorrect(k - 2) + [true]) == ([true] + AllCorrect(k - 2)) + [true];
    }
  }

  lemma {:induction false} ReviewAllSnoc(d: LearningData, answers: seq<bool>, last: bool, now: int)
    ensures ReviewAll(d, answers + [last], now) == Reviewed(ReviewAll(d, answers, now), last, 0.0, now)
    decreases |answers|
  {
    if answers == [] {
      assert answers + [last] == [last];
    } else {
      assert (answers + [last])[1..] == answers[1..] + [last];
      ReviewAllSnoc(Reviewed(d, answers[0], 0.0, now), answers[1..], last, now);
    }
  }

  /** Twenty correct answers from scratch reach mastery 4 and a 30-day interval. */
  lemma TwentyCorrectAnswersGiveThirtyDays(now: int)
    ensures var d := ReviewAll(FreshLearningData, AllCorrect(20), now);
      d.mastery == 40 && d.nextReview == Some(now + 30 * MsPerDay)
  {
    CorrectRun(20, now);
  }

  /** The first correct answer on a new word: mastery 0.2, average equal to the
      response time, accuracy 100.00, due again tomorrow. */
  lemma FirstCorrectReview(now: int)
    ensures var d := Reviewed(FreshLearningData, true, 5.0, now);
      d.timesReviewed == 1 && d.correctAnswers == 1 && d.mastery == 2
      && d.averageResponseTime == 5.0 && AccuracyRate(d) == 10000
      && d.nextReview == Some(now + MsPerDay)
  {
  }

  /** Mastery 2.5 with 9 of 10 right, then a wrong answer: mastery 2.4,
      accuracy 9/11 = 81.82%, still high, so the interval stays 7 days. */
  lemma WrongAnswerInThirdBucket(now: int)
    ensures var d := FreshLearningData.(timesReviewed := 10, correctAnswers := 9, incorrectAnswers := 1, mastery := 25);
      var r := Reviewed(d, false, 0.0, now);
      r.mastery == 24 && AccuracyRate(r) == 8182 && r.nextReview == Some(now + 7 * MsPerDay)
  {
    var d := FreshLearningData.(timesReviewed := 10, correctAnswers := 9, incorrectAnswers := 1, mastery := 25);
    var r := Reviewed(d, false, 0.0, now);
    assert r.correctAnswers == 9 && r.incorrectAnswers == 2;
    assert AccuracyRate(r) == RoundDiv(90000, 11);
  }

  // ------------------------------------------------------------ the document

  /** A vocabulary document loaded in memory; `updateLearningData` and
      `calculateNextReview` change its learning fields in place. */
  class VocabularyItem {
    var id: string
    var word: string
    var translation: string
    var language: string
    var addedBy: Option<string>
    var isActive: bool
    var timesReviewed: nat
    var correctAnswers: nat
    var incorrectAnswers: nat
    var lastReviewed: Option<int>
    var nextReview: Option<int>
    var mastery: int
    var averageResponseTime: real

    function Data(): LearningData
      reads this
    {
      LearningData(timesReviewed, correctAnswers, incorrectAnswers, lastReviewed,
                   nextReview, mastery, averageResponseTime)
    }

    function Doc(): VocabularyDoc
      reads this
    {
      VocabularyDoc(id, word, translation, language, addedBy, isActive, Data())
    }

    constructor FromDoc(doc: VocabularyDoc)
      ensures Doc() == doc
    {
      id, word, translation, language := doc.id, doc.word, doc.translation, doc.language;
      addedBy, isActive := doc.addedBy, doc.isActive;
      timesReviewed := doc.learning.timesReviewed;
      correctAnswers := doc.learning.correctAnswers;
      incorrectAnswers := doc.learning.incorrectAnswers;
      lastReviewed, nextReview := doc.learning.lastReviewed, doc.learning.nextReview;
      mastery := doc.learning.mastery;
      averageResponseTime := doc.learning.averageResponseTime;
    }

    /** A new word with the schema's defaults, not yet saved. */
    constructor Create(id: string, word: string, translation: string, language: string, addedBy: Option<string>)
      ensures Doc() == VocabularyDoc(id, word, translation, language, addedBy, true, FreshLearningData)
    {
      this.id := id;
      this.word, this.translation, this.language := word, translation, language;
      this.addedBy, isActive := addedBy, true;
      timesReviewed, correctAnswers, incorrectAnswers := 0, 0, 0;
      lastReviewed, nextReview := None, None;
      mastery, averageResponseTime := 0, 0.0;
    }

    /** The pre-save hook: a new document without a next-review date becomes
        due immediately. */
    method PreSave(isNew: bool, now: int)
      modifies this`nextReview
      ensures nextReview == if isNew && old(nextReview).None? then Some(now) else old(nextReview)
    {
      if isNew && nextReview.None? {
        nextReview := Some(now);
      }
    }

    /** `updateLearningData`: count the answer, move mastery, fold the response
        time into the running mean, then schedule the next review. */
    method UpdateLearningData(correct: bool, responseTime: real, now: int)
      modifies this`timesReviewed, this`correctAnswers, this`incorrectAnswers, this`lastReviewed
      modifies this`nextReview, this`mastery, this`averageResponseTime
      ensures Doc() == old(Doc()).(learning := Reviewed(old(Data()), correct, responseTime, now))
    {
      RecordAnswer(correct, responseTime, now);
      CalculateNextReview(now);
    }

    /** The first part of `updateLearningData`, before it calls
        `calculateNextReview`. */
    method RecordAnswer(correct: bool, responseTime: real, now: int)
      modifies this`timesReviewed, this`correctAnswers, this`incorrectAnswers, this`lastReviewed
      modifies this`mastery, this`averageResponseTime
      ensures Data() == Answered(old(Data()), correct, responseTime, now)
    {
      ghost var before := Data();
      timesReviewed := timesReviewed + 1;
      lastReviewed := Some(now);

      if correct {
        correctAnswers := correctAnswers + 1;
        if mastery < SchemaMaxMastery {
          mastery := mastery + 2;
        }
      } else {
        incorrectAnswers := incorrectAnswers + 1;
        if mastery > 0 {
          mastery := Max(0, mastery - 1);
        }
      }

      var totalTime := averageResponseTime * ((timesReviewed - 1) as real) + responseTime;
      averageResponseTime := totalTime / (timesReviewed as real);
      assert averageResponseTime == RunningMean(before.averageResponseTime, before.timesReviewed, responseTime);
    }

    /** `calculateNextReview`: the table applied to the current mastery and
        accuracy. */
    method CalculateNextReview(now: int)
      modifies this`nextReview
      ensures nextReview == Some(NextReviewAt(old(Data()), now))
    {
      var accuracyHigh := AccuracyRate(Data()) > 8000;
      var intervalDays: nat;
      if mastery < 10 {
        intervalDays := 1;
      } else if mastery < 20 {
        intervalDays := if accuracyHigh then 3 else 1;
      } else if mastery < 30 {
        intervalDays := if accuracyHigh then 7 else 3;
      } else if mastery < 40 {
        intervalDays := if accuracyHigh then 14 else 7;
      } else {
        intervalDays := if accuracyHigh then 30 else 14;
      }
      nextReview := Some(now + intervalDays * MsPerDay);
    }
  }

  // ------------------------------------------------------------- the query

  /** The filter of `getDueForReview`: active, in the language, due by now. */
  predicate IsDue(doc: VocabularyDoc, language: string, now: int)
  {
    doc.isActive && doc.language == language
    && doc.learning.nextReview.Some? && doc.learning.nextReview.value <= now
  }

  /** MongoDB's `limit(n)`: the first n results, all of them when n is 0. */
  function Limit<T>(s: seq<T>, n: nat): (r: seq<T>)
    ensures n > 0 ==> |r| == Min(n, |s|)
    ensures n == 0 ==> r == s
    ensures IsPrefix(r, s)
  {
    if n == 0 || |s| <= n then s else s[..n]
  }

  /** Every due word, in store order. */
  function AllDue(docs: seq<VocabularyDoc>, language: string, now: int): (r: seq<VocabularyDoc>)
    ensures forall x :: x in r <==> x in docs && IsDue(x, language, now)
    ensures IsSubsequence(r, docs)
  {
    FilterIsSubsequence(docs, x => IsDue(x, language, now));
    Filter(docs, x => IsDue(x, language, now))
  }

  lemma PrefixMembers<T>(p: seq<T>, s: seq<T>)
    requires IsPrefix(p, s)
    ensures forall x :: x in p ==> x in s
  {
    forall x | x in p ensures x in s {
      var i :| 0 <= i < |p| && p[i] == x;
      assert s[i] == x;
    }
  }

  /** `getDueForReview(userId, language)`: the due words in store order, at
      most 20; `userId` plays no part. */
  function DueForReview(docs: seq<VocabularyDoc>, userId: string, language: string, now: int): (r: seq<VocabularyDoc>)
    ensures |r| <= DueForReviewLimit
    ensures forall x :: x in r ==> x in docs && IsDue(x, language, now)
    ensures IsPrefix(r, AllDue(docs, language, now))
    ensures |r| < DueForReviewLimit ==> forall x :: x in docs && IsDue(x, language, now) ==> x in r
  {
    var due := AllDue(docs, language, now);
    var r := Limit(due, DueForReviewLimit);
    PrefixMembers(r, due);
    r
  }

  /** Which user asks makes no difference to the due words. */
  lemma DueForReviewIgnoresUser(docs: seq<VocabularyDoc>, u1: string, u2: string, language: string, now: int)
    ensures DueForReview(docs, u1, language, now) == DueForReview(docs, u2, language, now)
  {
  }

  /** A word becomes due once its review date has passed and stays due as
      time goes on. */
  lemma DueStaysDue(doc: VocabularyDoc, language: string, now: int, later: int)
    requires IsDue(doc, language, now) && now <= later
    ensures IsDue(doc, language, later)
  {
  }

  /** From a schema-valid state only a correct answer at mastery 4.9 leaves
      the schema's range: every other review can be saved. */
  lemma OnlyFourPointNineOvershoots(d: LearningData, correct: bool, rt: real, now: int)
    requires SchemaValid(d)
    ensures SchemaValid(Reviewed(d, correct, rt, now)) <==> !(correct && d.mastery == 49)
  {
  }

  /** A word reviewed at `now` is not due again before a full day has passed. */
  lemma ReviewedWordRestsADay(doc: VocabularyDoc, correct: bool, rt: real, now: int, t: int)
    requires t < now + MsPerDay
    ensures !IsDue(doc.(learning := Reviewed(doc.learning, correct, rt, now)), doc.language, t)
  {
  }
}
