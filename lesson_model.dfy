/** The lesson document of server/models/Lesson.js: the attempt statistics
    (`addAttempt`), the `completionRate` and `difficultyScore` virtuals and the
    pre-save rule that stamps `publishedAt`. */
module LessonModel {
  import opened Common

  datatype LessonStats = LessonStats(totalAttempts: nat, completions: nat, averageScore: int, averageTime: int)

  /** What `addAttempt` keeps true: no more completions than attempts. */
  predicate StatsValid(s: LessonStats)
  {
    s.completions <= s.totalAttempts
  }

  /** `Math.round` of a running mean over `n` values whose previous mean was
      `mean`, after adding `x`: the mean of n values rounded to the nearest
      integer. */
  function RoundedMean(mean: int, n: nat, x: int): (r: int)
    requires n >= 1
    ensures 2 * n * r - n <= 2 * (mean * (n - 1) + x) < 2 * n * r + n
  {
    RoundDiv(mean * (n - 1) + x, n)
  }

  /** A rounded mean of values in [lo, hi] stays in [lo, hi]. */
  lemma RoundedMeanInRange(mean: int, n: nat, x: int, lo: int, hi: int)
    requires n >= 1 && lo <= mean <= hi && lo <= x <= hi
    ensures lo <= RoundedMean(mean, n, x) <= hi
  {
    var total := mean * (n - 1) + x;
    assert n * lo <= total <= n * hi by {
      MulMonotone(n - 1, lo, mean);
      MulMonotone(n - 1, mean, hi);
    }
    RoundDivWithin(total, n, lo, hi);
  }

  lemma MulMonotone(k: nat, x: int, y: int)
    requires x <= y
    ensures k * x <= k * y
  {
  }

  /** The statistics after `addAttempt(completed, score, timeSpent)`. */
  function AttemptAdded(s: LessonStats, completed: bool, score: int, timeSpent: int): (r: LessonStats)
    ensures r.totalAttempts == s.totalAttempts + 1
    ensures r.completions == s.completions + (if completed then 1 else 0)
    ensures !completed ==> r.averageScore == s.averageScore && r.averageTime == s.averageTime
    ensures completed ==>
      2 * r.completions * r.averageScore - r.completions
        <= 2 * (s.averageScore * s.completions + score)
        < 2 * r.completions * r.averageScore + r.completions
    ensures completed ==>
      2 * r.completions * r.averageTime - r.completions
        <= 2 * (s.averageTime * s.completions + timeSpent)
        < 2 * r.completions * r.averageTime + r.completions
    ensures StatsValid(s) ==> StatsValid(r)
  {
    if completed then
      var n := s.completions + 1;
      LessonStats(s.totalAttempts + 1, n, RoundedMean(s.averageScore, n, score), RoundedMean(s.averageTime, n, timeSpent))
    else
      s.(totalAttempts := s.totalAttempts + 1)
  }

  /** The `completionRate` virtual in hundredths of a percent. */
  function CompletionRate(s: LessonStats): (r: int)
    ensures s.totalAttempts == 0 ==> r == 0
    ensures StatsValid(s) ==> 0 <= r <= 10000
    ensures s.totalAttempts > 0 ==>
      2 * s.totalAttempts * r - s.totalAttempts <= 20000 * s.completions < 2 * s.totalAttempts * r + s.totalAttempts
  {
    PercentHundredths(s.completions, s.totalAttempts)
  }

  datatype Difficulty = Easy | Medium | Hard

  function Hardness(d: Difficulty): nat
  {
    match d
    case Easy => 0
    case Medium => 1
    case Hard => 2
  }

  /** The `difficultyScore` virtual: easy above 80% completion and an average
      above 85, else medium above 60% and 70, else hard. */
  function DifficultyOf(rate: int, avgScore: int): (d: Difficulty)
    ensures d == Easy <==> rate > 8000 && avgScore > 85
    ensures d == Medium <==> !(rate > 8000 && avgScore > 85) && rate > 6000 && avgScore > 70
  {
    if rate > 8000 && avgScore > 85 then Easy
    else if rate > 6000 && avgScore > 70 then Medium
    else Hard
  }

  function DifficultyScore(s: LessonStats): Difficulty
  {
    DifficultyOf(CompletionRate(s), s.averageScore)
  }

  /** Better completion and better scores never make a lesson harder. */
  lemma DifficultyMonotone(rate1: int, avg1: int, rate2: int, avg2: int)
    requires rate1 <= rate2 && avg1 <= avg2
    ensures Hardness(DifficultyOf(rate2, avg2)) <= Hardness(DifficultyOf(rate1, avg1))
  {
  }

  /** A lesson nobody has attempted is hard. */
  lemma UnattemptedLessonIsHard(s: LessonStats)
    requires s.totalAttempts == 0
    ensures DifficultyScore(s) == Hard
  {
  }

  /** The pre-save rule: `publishedAt` is stamped when `isPublished` was just
      changed to true and no date is set; an existing date is never replaced. */
  function PublishedAtAfterSave(isPublishedModified: bool, isPublished: bool, publishedAt: Option<int>, now: int): (r: Option<int>)
    ensures publishedAt.Some? ==> r == publishedAt
    ensures publishedAt.None? ==> (r.Some? <==> isPublishedModified && isPublished)
    ensures r.Some? && publishedAt.None? ==> r.value == now
  {
    if isPublishedModified && isPublished && publishedAt.None? then Some(now) else publishedAt
  }

  /** A lesson document, as far as the core reads and writes it. */
  class Lesson {
    var id: string
    var stats: LessonStats
    var isPublished: bool
    var publishedAt: Option<int>

    constructor (id: string)
      ensures this.id == id && stats == LessonStats(0, 0, 0, 0)
      ensures !isPublished && publishedAt.None?
    {
      this.id := id;
      stats := LessonStats(0, 0, 0, 0);
      isPublished := false;
      publishedAt := None;
    }

    /** `addAttempt`. */
    method AddAttempt(completed: bool, score: int, timeSpent: int)
      modifies this`stats
      ensures stats == AttemptAdded(old(stats), completed, score, timeSpent)
    {
      ghost var before := stats;
      stats := stats.(totalAttempts := stats.totalAttempts + 1);
      if completed {
        stats := stats.(completions := stats.completions + 1);

        var totalScore := stats.averageScore * (stats.completions - 1) + score;
        stats := stats.(averageScore := RoundDiv(totalScore, stats.completions));
        assert stats.averageScore == RoundedMean(before.averageScore, before.completions + 1, score);

        var totalTime := stats.averageTime * (stats.completions - 1) + timeSpent;
        stats := stats.(averageTime := RoundDiv(totalTime, stats.completions));
        assert stats.averageTime == RoundedMean(before.averageTime, before.completions + 1, timeSpent);
      }
    }

    /** The pre-save hook, told whether `isPublished` changed since the last
        save. */
    method PreSave(isPublishedModified: bool, now: int)
      modifies this`publishedAt
      ensures publishedAt == PublishedAtAfterSave(isPublishedModified, isPublished, old(publishedAt), now)
    {
      if isPublishedModified && isPublished && publishedAt.None? {
        publishedAt := Some(now);
      }
    }
  }
}
