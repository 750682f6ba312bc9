/** The per-language progress record of server/models/Progress.js and its four
    update methods: skill practice, lesson completion, vocabulary quiz answers
    and study sessions, plus the `overallAccuracy` virtual.

    Skill levels are counted in tenths (`score / 10` points per exercise, so a
    whole-number score adds `score` tenths), times in milliseconds, durations
    in minutes; "now" is a parameter. */
module ProgressModel {
  import opened Common

  const MsPerDay: int := 86400000

  /** Skill levels are capped at 100, in tenths. */
  const MaxSkillLevel: int := 1000

  /** At most 5 level points per exercise, in tenths. */
  const MaxImprovement: int := 50

  const RecentScoresKept: nat := 10
  const SessionsKept: nat := 30

  /** The five exercise skills count exercises and average their scores; the
      vocabulary skill has no such fields in the schema. */
  datatype SkillCounters = SkillCounters(exercisesCompleted: nat, averageScore: int)

  datatype Skill = Skill(level: int, counters: Option<SkillCounters>, lastPracticed: Option<int>)

  datatype CompletedLesson = CompletedLesson(lessonId: string, completedAt: int, score: int, timeSpent: int, attempts: int)

  datatype LessonLog = LessonLog(completed: seq<CompletedLesson>, inProgress: seq<string>, totalCompleted: nat)

  datatype Overall = Overall(percentage: int, totalPoints: int)

  datatype QuizStats = QuizStats(
    totalAttempts: nat,
    totalCorrect: nat,
    totalIncorrect: nat,
    averageScore: int,
    recentScores: seq<int>,
    bestScore: int,
    lastQuizDate: Option<int>)

  /** An entry of `strongWords` or `weakWords`; `seen` is `masteredAt` or
      `lastSeen`. */
  datatype WordEntry = WordEntry(word: string, accuracy: int, seen: int)

  datatype WordLists = WordLists(strongWords: seq<WordEntry>, weakWords: seq<WordEntry>, wordsMastered: nat)

  datatype Session = Session(date: int, duration: int, activities: seq<string>)

  datatype StudyTime = StudyTime(
    totalMinutes: int,
    thisWeek: int,
    thisMonth: int,
    dailyAverage: int,
    lastStudySession: Option<int>,
    sessions: seq<Session>)

  const ExerciseSkills: set<string> := {"speaking", "listening", "reading", "writing", "grammar"}

  /** The `skills` object of a new record. */
  function DefaultSkills(): (m: map<string, Skill>)
    ensures m.Keys == ExerciseSkills + {"vocabulary"}
    ensures forall k :: k in m ==> m[k].level == 0 && (m[k].counters.Some? <==> k != "vocabulary")
  {
    map k | k in ExerciseSkills + {"vocabulary"} ::
      Skill(0, if k == "vocabulary" then None else Some(SkillCounters(0, 0)), None)
  }

  predicate DistinctWords(s: seq<WordEntry>)
  {
    forall i, j :: 0 <= i < j < |s| ==> s[i].word != s[j].word
  }

  /** Every skill level within 0..100. */
  predicate SkillsValid(skills: map<string, Skill>)
  {
    forall k :: k in skills ==> 0 <= skills[k].level <= MaxSkillLevel
  }

  /** Every answer counted once; at most 10 recent scores. */
  predicate QuizValid(q: QuizStats)
  {
    q.totalAttempts == q.totalCorrect + q.totalIncorrect && |q.recentScores| <= RecentScoresKept
  }

  /** No word twice in either list; `wordsMastered` counts the strong words. */
  predicate WordsValid(w: WordLists)
  {
    DistinctWords(w.strongWords) && DistinctWords(w.weakWords) && w.wordsMastered == |w.strongWords|
  }

  function FindWord(s: seq<WordEntry>, word: string): (k: Option<nat>)
    ensures k.Some? ==> k.value < |s| && s[k.value].word == word
    ensures k.None? ==> forall i :: 0 <= i < |s| ==> s[i].word != word
  {
    FindFirst(s, (e: WordEntry) => e.word == word)
  }

  // ------------------------------------------------------------ pure updates

  /** One exercise of a skill (`updateSkillProgress` on the skill itself). */
  function Practised(s: Skill, score: nat, now: int): (r: Skill)
    ensures r.level == Min(MaxSkillLevel, s.level + Min(score, MaxImprovement))
    ensures s.level <= MaxSkillLevel ==> s.level <= r.level <= MaxSkillLevel
    ensures r.level - s.level <= MaxImprovement
    ensures r.counters.Some? <==> s.counters.Some?
    ensures s.counters.Some? ==> r.counters.value.exercisesCompleted == s.counters.value.exercisesCompleted + 1
    ensures s.counters.Some? ==>
      var n := r.counters.value.exercisesCompleted;
      var total := s.counters.value.averageScore * (n - 1) + score;
      var avg := r.counters.value.averageScore;
      2 * n * avg - n <= 2 * total < 2 * n * avg + n
    ensures r.lastPracticed == Some(now)
  {
    var counters := match s.counters
      case None => None
      case Some(c) =>
        var n := c.exercisesCompleted + 1;
        Some(SkillCounters(n, RoundDiv(c.averageScore * (n - 1) + score, n)));
    Skill(Min(MaxSkillLevel, s.level + Min(score, MaxImprovement)), counters, Some(now))
  }

  /** The rounded running mean of scores in 0..100 stays in 0..100. */
  lemma AverageScoreStaysInRange(s: Skill, score: nat, now: int)
    requires s.counters.Some? && 0 <= s.counters.value.averageScore <= 100 && score <= 100
    ensures 0 <= Practised(s, score, now).counters.value.averageScore <= 100
  {
    var c := s.counters.value;
    var n := c.exercisesCompleted + 1;
    var total := c.averageScore * (n - 1) + score;
    assert n * 0 <= total <= n * 100 by {
      MulBounds(c.averageScore, n - 1);
    }
    RoundDivWithin(total, n, 0, 100);
  }

  lemma MulBounds(a: int, k: nat)
    requires 0 <= a <= 100
    ensures 0 <= a * k <= 100 * k
  {
  }

  /** Ten exercises at score 50 or more take a skill from 0 to 50 points;
      twenty take it to the cap. */
  lemma {:induction false} PractiseRun(s: Skill, score: nat, k: nat, now: int)
    requires score >= MaxImprovement && 0 <= s.level <= MaxSkillLevel
    ensures PractiseN(s, score, k, now).level == Min(MaxSkillLevel, s.level + k * MaxImprovement)
  {
    if k > 0 {
      PractiseRun(s, score, k - 1, now);
      var prev := PractiseN(s, score, k - 1, now);
      assert PractiseN(s, score, k, now) == Practised(prev, score, now);
      assert Practised(prev, score, now).level == Min(MaxSkillLevel, prev.level + MaxImprovement);
      assert (k - 1) * MaxImprovement + MaxImprovement == k * MaxImprovement;
    }
  }

  function PractiseN(s: Skill, score: nat, k: nat, now: int): Skill
  {
    if k == 0 then s else Practised(PractiseN(s, score, k - 1, now), score, now)
  }

  /** `recentScores` after pushing `score` and shifting once if over 10. */
  function PushRecent(recent: seq<int>, score: int): (r: seq<int>)
    ensures |recent| <= RecentScoresKept ==> |r| <= RecentScoresKept && r == LastN(recent + [score], RecentScoresKept)
    ensures |r| > 0 && r[|r| - 1] == score
  {
    var pushed := recent + [score];
    if |pushed| > RecentScoresKept then pushed[1..] else pushed
  }

  /** `studySessions` after pushing one session and keeping the last 30. */
  function PushSession(sessions: seq<Session>, s: Session): (r: seq<Session>)
    ensures |r| == Min(SessionsKept, |sessions| + 1)
    ensures r[|r| - 1] == s
    ensures forall i :: 0 <= i < |r| - 1 ==> r[i] == sessions[|sessions| + 1 - |r| + i]
  {
    var pushed := sessions + [s];
    if |pushed| > SessionsKept then LastN(pushed, SessionsKept) else pushed
  }

  function SumDurations(s: seq<Session>): int
  {
    if s == [] then 0 else s[0].duration + SumDurations(s[1..])
  }

  lemma {:induction false} SumDurationsNonNegative(s: seq<Session>)
    requires forall i :: 0 <= i < |s| ==> s[i].duration >= 0
    ensures SumDurations(s) >= 0
  {
    if s != [] { SumDurationsNonNegative(s[1..]); }
  }

  /** The minutes studied in sessions since `cutoff`. */
  function RecentMinutes(sessions: seq<Session>, cutoff: int): int
  {
    SumDurations(Filter(sessions, (s: Session) => s.date >= cutoff))
  }

  /** `Math.round(totalTime / 30)` over the sessions of the last 30 days. */
  function DailyAverage(sessions: seq<Session>, now: int): (r: int)
    ensures 60 * r - 30 <= 2 * RecentMinutes(sessions, now - 30 * MsPerDay) < 60 * r + 30
  {
    RoundDiv(RecentMinutes(sessions, now - 30 * MsPerDay), 30)
  }

  /** The `overallAccuracy` virtual in hundredths of a percent. */
  function OverallAccuracy(q: QuizStats): (r: int)
    ensures 0 <= r <= 10000
    ensures q.totalCorrect + q.totalIncorrect == 0 ==> r == 0
    ensures q.totalCorrect + q.totalIncorrect > 0 ==>
      2 * (q.totalCorrect + q.totalIncorrect) * r - (q.totalCorrect + q.totalIncorrect)
        <= 20000 * q.totalCorrect
        < 2 * (q.totalCorrect + q.totalIncorrect) * r + (q.totalCorrect + q.totalIncorrect)
  {
    PercentHundredths(q.totalCorrect, q.totalCorrect + q.totalIncorrect)
  }

  /** The quiz statistics after one vocabulary answer. */
  function QuizAnswered(q: QuizStats, correct: bool, now: int): (r: QuizStats)
    ensures r.totalCorrect == q.totalCorrect + (if correct then 1 else 0)
    ensures r.totalIncorrect == q.totalIncorrect + (if correct then 0 else 1)
    ensures r.totalAttempts == q.totalAttempts + 1
    ensures QuizValid(q) ==> QuizValid(r)
    ensures 0 <= r.averageScore <= 100
    ensures r.totalCorrect + r.totalIncorrect > 0
    ensures r.averageScore == RoundDiv(100 * r.totalCorrect, r.totalCorrect + r.totalIncorrect)
    ensures var t := r.totalCorrect + r.totalIncorrect;
      2 * t * r.averageScore - t <= 200 * r.totalCorrect < 2 * t * r.averageScore + t
    ensures |q.recentScores| <= RecentScoresKept ==>
      r.recentScores == LastN(q.recentScores + [if correct then 100 else 0], RecentScoresKept)
      && |r.recentScores| <= RecentScoresKept
    ensures r.bestScore == Max(q.bestScore, if correct then 100 else 0) >= q.bestScore
    ensures r.lastQuizDate == Some(now)
  {
    var score := if correct then 100 else 0;
    var c := q.totalCorrect + (if correct then 1 else 0);
    var i := q.totalIncorrect + (if correct then 0 else 1);
    var avg := RoundDiv(100 * c, c + i);
    RoundedPercentInRange(c, c + i);
    QuizStats(q.totalAttempts + 1, c, i, avg, PushRecent(q.recentScores, score),
              Max(q.bestScore, score), Some(now))
  }

  /** The strong and weak word lists after one answer on `word`: a correct
      answer files the word as strong unless it already is; a wrong one
      lowers an existing weak entry by 10 (not below 0) or adds it at 0. */
  function WordFiled(w: WordLists, correct: bool, word: string, now: int): (r: WordLists)
    ensures correct ==> r.weakWords == w.weakWords
    ensures correct && FindWord(w.strongWords, word).Some? ==> r == w
    ensures correct && FindWord(w.strongWords, word).None? ==>
      r.strongWords == w.strongWords + [WordEntry(word, 100, now)] && r.wordsMastered == w.wordsMastered + 1
    ensures !correct ==> r.strongWords == w.strongWords && r.wordsMastered == w.wordsMastered
    ensures !correct ==> |r.weakWords| == |w.weakWords| + (if FindWord(w.weakWords, word).Some? then 0 else 1)
    ensures !correct && FindWord(w.weakWords, word).None? ==>
      r.weakWords == w.weakWords + [WordEntry(word, 0, now)]
    ensures !correct && FindWord(w.weakWords, word).Some? ==>
      var k := FindWord(w.weakWords, word).value;
      r.weakWords == w.weakWords[k := WordEntry(word, Max(0, w.weakWords[k].accuracy - 10), now)]
    ensures WordsValid(w) ==> WordsValid(r)
  {
    if correct then
      match FindWord(w.strongWords, word)
      case Some(_) => w
      case None => w.(strongWords := w.strongWords + [WordEntry(word, 100, now)], wordsMastered := w.wordsMastered + 1)
    else
      match FindWord(w.weakWords, word)
      case Some(k) =>
        w.(weakWords := w.weakWords[k := WordEntry(w.weakWords[k].word, Max(0, w.weakWords[k].accuracy - 10), now)])
      case None => w.(weakWords := w.weakWords + [WordEntry(word, 0, now)])
  }

  /** A wrong answer touches no other weak word. */
  lemma OtherWeakWordsUntouched(w: WordLists, word: string, now: int, i: nat)
    requires i < |w.weakWords| && w.weakWords[i].word != word
    ensures var r := WordFiled(w, false, word, now);
      i < |r.weakWords| && r.weakWords[i] == w.weakWords[i]
  {
  }

  /** A wrong answer on a weak word costs 10 accuracy points, floored at 0. */
  lemma WeakWordLosesTen(w: WordLists, word: string, now: int)
    requires FindWord(w.weakWords, word).Some?
    ensures var k := FindWord(w.weakWords, word).value;
      WordFiled(w, false, word, now).weakWords[k].accuracy == Max(0, w.weakWords[k].accuracy - 10)
  {
  }

  lemma RoundedPercentInRange(part: nat, total: nat)
    requires 0 < total && part <= total
    ensures 0 <= RoundDiv(100 * part, total) <= 100
  {
    RoundDivWithin(100 * part, total, 0, 100);
  }

  /** Filing the same correct answer twice changes nothing the second time. */
  lemma StrongFilingIsIdempotent(w: WordLists, word: string, now: int)
    ensures var once := WordFiled(w, true, word, now);
      WordFiled(once, true, word, now) == once
  {
    var once := WordFiled(w, true, word, now);
    assert once.strongWords[|once.strongWords| - 1].word == word || FindWord(w.strongWords, word).Some?;
  }

  // ------------------------------------------------------------ the record

  class Progress {
    var skills: map<string, Skill>
    var lessons: LessonLog
    var overall: Overall
    var quizzes: QuizStats
    var words: WordLists
    var studyTime: StudyTime
    var lastActivity: int

    /** What the four update methods keep true. */
    predicate Valid()
      reads this
    {
      && SkillsValid(skills)
      && overall.percentage == Min(100, lessons.totalCompleted)
      && QuizValid(quizzes)
      && WordsValid(words)
      && |studyTime.sessions| <= SessionsKept
    }

    /** A new record with the schema's defaults. */
    constructor (now: int)
      ensures Valid()
      ensures skills == DefaultSkills() && lessons == LessonLog([], [], 0)
      ensures overall == Overall(0, 0)
      ensures quizzes == QuizStats(0, 0, 0, 0, [], 0, None)
      ensures words == WordLists([], [], 0)
      ensures studyTime == StudyTime(0, 0, 0, 0, None, [])
      ensures lastActivity == now
    {
      skills := DefaultSkills();
      lessons := LessonLog([], [], 0);
      overall := Overall(0, 0);
      quizzes := QuizStats(0, 0, 0, 0, [], 0, None);
      words := WordLists([], [], 0);
      studyTime := StudyTime(0, 0, 0, 0, None, []);
      lastActivity := now;
    }

    /** `updateSkillProgress`: an unknown skill changes nothing; otherwise the
        skill is practised and `timeSpent` is added to the three study-time
        totals. */
    method UpdateSkillProgress(skillName: string, score: nat, timeSpent: int, now: int)
      requires Valid()
      modifies this`skills, this`studyTime
      ensures Valid()
      ensures skillName !in old(skills) ==> skills == old(skills) && studyTime == old(studyTime)
      ensures skillName in old(skills) ==>
        skills == old(skills)[skillName := Practised(old(skills)[skillName], score, now)]
        && studyTime == old(studyTime).(totalMinutes := old(studyTime).totalMinutes + timeSpent,
                                        thisWeek := old(studyTime).thisWeek + timeSpent,
                                        thisMonth := old(studyTime).thisMonth + timeSpent)
    {
      if skillName !in skills {
        return;
      }
      var skill := skills[skillName];
      var counters := skill.counters;
      if counters.Some? {
        var n := counters.value.exercisesCompleted + 1;
        var totalScore := counters.value.averageScore * (n - 1) + score;
        counters := Some(SkillCounters(n, RoundDiv(totalScore, n)));
      }
      var improvement := Min(score, MaxImprovement);
      var level := Min(MaxSkillLevel, skill.level + improvement);
      skills := skills[skillName := Skill(level, counters, Some(now))];

      studyTime := studyTime.(totalMinutes := studyTime.totalMinutes + timeSpent);
      studyTime := studyTime.(thisWeek := studyTime.thisWeek + timeSpent);
      studyTime := studyTime.(thisMonth := studyTime.thisMonth + timeSpent);
    }

    /** `completeLesson`: drop the lesson from in-progress, log it as
        completed, count it and its points. */
    method CompleteLesson(lessonId: string, score: int, timeSpent: int, attempts: int, now: int)
      requires Valid()
      modifies this`lessons, this`overall
      ensures Valid()
      ensures lessons.inProgress == Filter(old(lessons.inProgress), (l: string) => l != lessonId)
      ensures lessonId !in lessons.inProgress
      ensures lessons.completed == old(lessons.completed) + [CompletedLesson(lessonId, now, score, timeSpent, attempts)]
      ensures lessons.totalCompleted == old(lessons.totalCompleted) + 1
      ensures overall.totalPoints == old(overall.totalPoints) + score
      ensures overall.percentage == Min(100, lessons.totalCompleted)
    {
      var remaining := Filter(lessons.inProgress, (l: string) => l != lessonId);
      lessons := LessonLog(lessons.completed + [CompletedLesson(lessonId, now, score, timeSpent, attempts)],
                           remaining, lessons.totalCompleted + 1);
      overall := Overall(Min(100, lessons.totalCompleted), overall.totalPoints + score);
    }

    /** `updateVocabularyProgress`: count the answer, file the word as strong
        (once) or weak, and refresh the quiz statistics. */
    method UpdateVocabularyProgress(correct: bool, word: string, now: int)
      requires Valid()
      modifies this`quizzes, this`words
      ensures Valid()
      ensures quizzes == QuizAnswered(old(quizzes), correct, now)
      ensures words == WordFiled(old(words), correct, word, now)
    {
      FileWord(correct, word, now);
      RecordQuizAnswer(correct, now);
    }

    /** The word-list half of `updateVocabularyProgress`. */
    method FileWord(correct: bool, word: string, now: int)
      modifies this`words
      ensures words == WordFiled(old(words), correct, word, now)
      ensures WordsValid(old(words)) ==> WordsValid(words)
    {
      if correct {
        var existing := FindWord(words.strongWords, word);
        if existing.None? {
          words := words.(strongWords := words.strongWords + [WordEntry(word, 100, now)],
                          wordsMastered := words.wordsMastered + 1);
        }
      } else {
        var existing := FindWord(words.weakWords, word);
        if existing.Some? {
          var k := existing.value;
          var entry := words.weakWords[k];
          words := words.(weakWords := words.weakWords[k := WordEntry(entry.word, Max(0, entry.accuracy - 10), now)]);
        } else {
          words := words.(weakWords := words.weakWords + [WordEntry(word, 0, now)]);
        }
      }
    }

    /** The quiz-statistics half of `updateVocabularyProgress`. */
    method RecordQuizAnswer(correct: bool, now: int)
      modifies this`quizzes
      ensures quizzes == QuizAnswered(old(quizzes), correct, now)
      ensures QuizValid(old(quizzes)) ==> QuizValid(quizzes)
    {
      ghost var q0 := quizzes;
      if correct {
        quizzes := quizzes.(totalCorrect := quizzes.totalCorrect + 1);
      } else {
        quizzes := quizzes.(totalIncorrect := quizzes.totalIncorrect + 1);
      }
      quizzes := quizzes.(totalAttempts := quizzes.totalAttempts + 1, lastQuizDate := Some(now));

      var total := quizzes.totalCorrect + quizzes.totalIncorrect;
      quizzes := quizzes.(averageScore := RoundDiv(100 * quizzes.totalCorrect, total));

      var score := if correct then 100 else 0;
      quizzes := quizzes.(recentScores := PushRecent(quizzes.recentScores, score));

      if score > quizzes.bestScore {
        quizzes := quizzes.(bestScore := score);
      }
      ghost var expected := QuizAnswered(q0, correct, now);
      assert quizzes.averageScore == expected.averageScore;
      assert quizzes.recentScores == expected.recentScores;
      assert quizzes.bestScore == expected.bestScore;
      assert quizzes == expected;
    }

    /** `addStudySession`: log the session, keep the last 30, stamp the
        activity and recompute the 30-day daily average. */
    method AddStudySession(duration: int, activities: seq<string>, now: int)
      requires Valid()
      modifies this`studyTime, this`lastActivity
      ensures Valid()
      ensures studyTime.sessions == PushSession(old(studyTime.sessions), Session(now, duration, activities))
      ensures studyTime.lastStudySession == Some(now) && lastActivity == now
      ensures studyTime.dailyAverage == DailyAverage(studyTime.sessions, now)
      ensures studyTime.totalMinutes == old(studyTime.totalMinutes)
      ensures studyTime.thisWeek == old(studyTime.thisWeek) && studyTime.thisMonth == old(studyTime.thisMonth)
    {
      var sessions := studyTime.sessions + [Session(now, duration, activities)];
      if |sessions| > SessionsKept {
        sessions := LastN(sessions, SessionsKept);
      }
      studyTime := studyTime.(sessions := sessions, lastStudySession := Some(now));
      lastActivity := now;

      var totalTime := RecentMinutes(studyTime.sessions, now - 30 * MsPerDay);
      studyTime := studyTime.(dailyAverage := RoundDiv(totalTime, 30));
    }
  }

  /** The session just logged always counts towards the daily average. */
  lemma NewSessionCounts(sessions: seq<Session>, duration: int, activities: seq<string>, now: int)
    ensures var r := PushSession(sessions, Session(now, duration, activities));
      Session(now, duration, activities) in Filter(r, (s: Session) => s.date >= now - 30 * MsPerDay)
  {
  }

  /** With non-negative durations the daily average is never negative. */
  lemma DailyAverageNonNegative(sessions: seq<Session>, now: int)
    requires forall i :: 0 <= i < |sessions| ==> sessions[i].duration >= 0
    ensures DailyAverage(sessions, now) >= 0
  {
    var recent := Filter(sessions, (s: Session) => s.date >= now - 30 * MsPerDay);
    assert forall i :: 0 <= i < |recent| ==> recent[i] in sessions;
    SumDurationsNonNegative(recent);
  }

  /** The rounded `averageScore` and the two-decimal `overallAccuracy` agree
      to within half a point. */
  lemma AverageScoreMatchesAccuracy(q: QuizStats)
    requires q.totalCorrect + q.totalIncorrect > 0
    ensures var avg := RoundDiv(100 * q.totalCorrect, q.totalCorrect + q.totalIncorrect);
      100 * avg - 50 <= OverallAccuracy(q) <= 100 * avg + 50
  {
    var c, t := q.totalCorrect, q.totalCorrect + q.totalIncorrect;
    var avg := RoundDiv(100 * c, t);
    var acc := OverallAccuracy(q);
    // 2t*avg - t <= 200c < 2t*avg + t and 2t*acc - t <= 20000c < 2t*acc + t
    assert 200 * t * avg - 100 * t <= 20000 * c < 200 * t * avg + 100 * t;
    PositiveFactor(t, 2 * acc - 200 * avg + 101);
    PositiveFactor(t, 200 * avg + 101 - 2 * acc);
  }
}
