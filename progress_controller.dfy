/** The decision rules of server/controllers/progressController.js: the
    reporting window of a period, the day record `recordProgress` creates or
    merges into, the XP-to-level rule with its level-up bonus, and the
    filtered, sorted achievement list of `getAchievements` with its
    statistics. Times are milliseconds; "now" and "today" are parameters. */
module ProgressController {
  import opened Common

  const MsPerDay: int := 86400000
  const XpPerLevel: int := 100
  const LevelUpBonus: int := 50

  /** The window, in days, a `period` query selects; anything unknown means a
      week. */
  function WindowDays(period: string): (d: nat)
    ensures d == 1 <==> period == "1d"
    ensures d == 30 <==> period == "30d"
    ensures d == 90 <==> period == "90d"
    ensures d == 7 <==> period != "1d" && period != "30d" && period != "90d"
  {
    match period
    case "1d" => 1
    case "7d" => 7
    case "30d" => 30
    case "90d" => 90
    case _ => 7
  }

  /** The earliest time a report for `period` looks at. */
  function WindowStart(now: int, period: string): (t: int)
    ensures now - 90 * MsPerDay <= t <= now - MsPerDay
  {
    now - WindowDays(period) * MsPerDay
  }

  /** A session's accuracy in percent: 0 without answers. */
  function SessionAccuracy(correct: nat, incorrect: nat): (r: real)
    ensures correct + incorrect == 0 ==> r == 0.0
    ensures correct + incorrect > 0 ==> r * (correct + incorrect) as real == 100.0 * correct as real
    ensures 0.0 <= r <= 100.0
  {
    if correct + incorrect > 0 then
      var r := (correct as real / (correct + incorrect) as real) * 100.0;
      PercentBetween(correct, incorrect, r);
      r
    else 0.0
  }

  lemma PercentBetween(correct: nat, incorrect: nat, r: real)
    requires correct + incorrect > 0 && r == (correct as real / (correct + incorrect) as real) * 100.0
    ensures r * (correct + incorrect) as real == 100.0 * correct as real
    ensures 0.0 <= r <= 100.0
  {
    var t := (correct + incorrect) as real;
    var q := correct as real / t;
    assert q * t == correct as real;
    FractionAtMostOne(correct as real, t);
  }

  lemma FractionAtMostOne(a: real, t: real)
    requires 0.0 <= a <= t && t > 0.0
    ensures 0.0 <= a / t <= 1.0
  {
    var q := a / t;
    assert q * t == a;
    CancelFactor(q, 1.0, t);
  }

  lemma CancelFactor(x: real, y: real, t: real)
    requires t > 0.0 && x * t <= y * t
    ensures x <= y
  {
  }

  /** The request body `recordProgress` reads (counters validated as
      non-negative). */
  datatype Submission = Submission(
    language: string,
    sessionType: string,
    wordsLearned: nat,
    correctAnswers: nat,
    incorrectAnswers: nat,
    timeSpent: nat,
    difficulty: string,
    completedLessons: seq<string>,
    xpGained: int)

  datatype SessionEntry = SessionEntry(
    sessionType: string,
    timeSpent: nat,
    wordsLearned: nat,
    correctAnswers: nat,
    incorrectAnswers: nat,
    accuracy: real,
    difficulty: string,
    completedAt: int)

  function SessionOf(sub: Submission, now: int): (e: SessionEntry)
    ensures e.correctAnswers == sub.correctAnswers && e.incorrectAnswers == sub.incorrectAnswers
    ensures e.wordsLearned == sub.wordsLearned && e.timeSpent == sub.timeSpent
    ensures 0.0 <= e.accuracy <= 100.0
  {
    SessionEntry(sub.sessionType, sub.timeSpent, sub.wordsLearned, sub.correctAnswers, sub.incorrectAnswers,
                 SessionAccuracy(sub.correctAnswers, sub.incorrectAnswers), sub.difficulty, now)
  }

  /** A counter summed over the sessions of a day. */
  function SessionSum(ss: seq<SessionEntry>, f: SessionEntry -> nat): nat
  {
    if ss == [] then 0 else SessionSum(ss[..|ss| - 1], f) + f(ss[|ss| - 1])
  }

  lemma SessionSumSnoc(ss: seq<SessionEntry>, e: SessionEntry, f: SessionEntry -> nat)
    ensures SessionSum(ss + [e], f) == SessionSum(ss, f) + f(e)
  {
    assert (ss + [e])[..|ss|] == ss;
  }

  /** `[...new Set([...prior, ...extra])]`: the lessons of both lists, each
      once, in order of first appearance. */
  function MergedLessons(prior: seq<string>, extra: seq<string>): (r: seq<string>)
    ensures NoDuplicates(r)
    ensures forall x :: x in r <==> x in prior || x in extra
  {
    Dedup(prior + extra)
  }

  /** A merge keeps a duplicate-free list as it was and only appends the
      lessons it did not hold. */
  lemma MergeKeepsEarlierLessons(prior: seq<string>, extra: seq<string>)
    requires NoDuplicates(prior)
    ensures IsPrefix(prior, MergedLessons(prior, extra))
    ensures forall x :: x in MergedLessons(prior, extra)[|prior|..] <==> x in extra && x !in prior
  {
    DedupKeepsDistinctPrefix(prior, extra);
    var r := MergedLessons(prior, extra);
    assert r[|prior|..] == DedupAfter(extra, prior);
  }

  /** The level a total XP reaches: `Math.floor(xp / 100) + 1`. */
  function LevelForXp(xp: int): int
  {
    xp / XpPerLevel + 1
  }

  /** The kind of achievement a level-up records. */
  const LevelUpKind: string := "level_up"

  /** An achievement on a day record. For a level-up, `level` is the level its
      title and description name. */
  datatype ProgressAchievement = ProgressAchievement(kind: string, level: int, xpReward: int, earnedAt: Option<int>)

  /** The outcome of adding XP to a user: new XP, the stored level and whether
      it went up. */
  datatype XpResult = XpResult(xp: int, level: int, levelUp: bool)

  function XpAfter(xp: int, level: int, gained: int): (r: XpResult)
    ensures r.levelUp <==> LevelForXp(xp + gained) > level
    ensures r.level == LevelForXp(xp + gained)
    ensures r.xp - (xp + gained) == (if r.levelUp then LevelUpBonus else 0)
  {
    var total := xp + gained;
    var newLevel := LevelForXp(total);
    var up := newLevel > level;
    XpResult(if up then total + LevelUpBonus else total, newLevel, up)
  }

  /** With a stored level that matches the XP and a non-negative gain, the
      level goes up exactly when the total crosses a multiple of 100. */
  lemma LevelUpWhenCrossingHundred(xp: int, gained: int)
    requires gained >= 0
    ensures XpAfter(xp, LevelForXp(xp), gained).levelUp <==> (xp + gained) / 100 > xp / 100
  {
  }

  /** The stored level never lags the XP by more than one: the bonus is
      added after the level is computed. */
  lemma {:induction false} StoredLevelLagsAtMostOne(xp: int, level: int, gained: int)
    ensures var r := XpAfter(xp, level, gained);
      r.level <= LevelForXp(r.xp) <= r.level + 1
  {
    var r := XpAfter(xp, level, gained);
    var total := xp + gained;
    assert total <= r.xp <= total + 50;
    DivMonotone(total, r.xp);
    DivMonotone(r.xp, total + 100);
    assert (total + 100) / 100 == total / 100 + 1;
  }

  lemma DivMonotone(a: int, b: int)
    requires a <= b
    ensures a / 100 <= b / 100
  {
  }

  /** The bonus can carry the XP past the next level while the stored level
      stays behind: 90 XP and 70 more give level 2 but 210 XP. */
  lemma BonusCanOutrunLevel()
    ensures XpAfter(90, 1, 70) == XpResult(210, 2, true)
    ensures LevelForXp(210) == 3
  {
  }

  /** A user as far as `recordProgress` updates it. */
  class XpAccount {
    var xp: int
    var level: int

    constructor (xp: int, level: int)
      ensures this.xp == xp && this.level == level
    {
      this.xp, this.level := xp, level;
    }
  }

  /** The day record of one user and language. */
  class DailyRecord {
    var user: string
    var language: string
    var date: int
    var sessions: seq<SessionEntry>
    var totalSessions: nat
    var wordsLearned: nat
    var correctAnswers: nat
    var incorrectAnswers: nat
    var timeSpent: nat
    var accuracy: real
    var xpGained: int
    var completedLessons: seq<string>
    var achievements: seq<ProgressAchievement>

    /** The totals are the sums over the sessions and the accuracy is theirs. */
    predicate Valid()
      reads this
    {
      && totalSessions == |sessions|
      && wordsLearned == SessionSum(sessions, (e: SessionEntry) => e.wordsLearned)
      && correctAnswers == SessionSum(sessions, (e: SessionEntry) => e.correctAnswers)
      && incorrectAnswers == SessionSum(sessions, (e: SessionEntry) => e.incorrectAnswers)
      && timeSpent == SessionSum(sessions, (e: SessionEntry) => e.timeSpent)
      && accuracy == SessionAccuracy(correctAnswers, incorrectAnswers)
    }

    /** `Progress.create`: the first session of the day. */
    constructor Create(user: string, sub: Submission, today: int, now: int)
      ensures Valid()
      ensures this.user == user && language == sub.language && date == today
      ensures sessions == [SessionOf(sub, now)] && xpGained == sub.xpGained
      ensures completedLessons == sub.completedLessons && achievements == []
    {
      this.user, language, date := user, sub.language, today;
      sessions := [SessionOf(sub, now)];
      totalSessions := 1;
      wordsLearned := sub.wordsLearned;
      correctAnswers := sub.correctAnswers;
      incorrectAnswers := sub.incorrectAnswers;
      timeSpent := sub.timeSpent;
      accuracy := SessionAccuracy(sub.correctAnswers, sub.incorrectAnswers);
      xpGained := sub.xpGained;
      completedLessons := sub.completedLessons;
      achievements := [];
      new;
      SessionSumSnoc([], SessionOf(sub, now), (e: SessionEntry) => e.wordsLearned);
      SessionSumSnoc([], SessionOf(sub, now), (e: SessionEntry) => e.correctAnswers);
      SessionSumSnoc([], SessionOf(sub, now), (e: SessionEntry) => e.incorrectAnswers);
      SessionSumSnoc([], SessionOf(sub, now), (e: SessionEntry) => e.timeSpent);
    }

    /** A further session on the same day: the session is logged, each counter
        grows by the submitted amount, the accuracy is recomputed over the day
        and the lessons are merged. */
    method Merge(sub: Submission, now: int)
      requires Valid()
      modifies this`sessions, this`totalSessions, this`wordsLearned, this`correctAnswers
      modifies this`incorrectAnswers, this`timeSpent, this`accuracy, this`xpGained, this`completedLessons
      ensures Valid()
      ensures sessions == old(sessions) + [SessionOf(sub, now)]
      ensures totalSessions == old(totalSessions) + 1
      ensures wordsLearned == old(wordsLearned) + sub.wordsLearned
      ensures correctAnswers == old(correctAnswers) + sub.correctAnswers
      ensures incorrectAnswers == old(incorrectAnswers) + sub.incorrectAnswers
      ensures timeSpent == old(timeSpent) + sub.timeSpent
      ensures xpGained == old(xpGained) + sub.xpGained
      ensures completedLessons == MergedLessons(old(completedLessons), sub.completedLessons)
    {
      var entry := SessionOf(sub, now);
      SessionSumSnoc(sessions, entry, (e: SessionEntry) => e.wordsLearned);
      SessionSumSnoc(sessions, entry, (e: SessionEntry) => e.correctAnswers);
      SessionSumSnoc(sessions, entry, (e: SessionEntry) => e.incorrectAnswers);
      SessionSumSnoc(sessions, entry, (e: SessionEntry) => e.timeSpent);
      sessions := sessions + [entry];
      totalSessions := totalSessions + 1;
      wordsLearned := wordsLearned + sub.wordsLearned;
      correctAnswers := correctAnswers + sub.correctAnswers;
      incorrectAnswers := incorrectAnswers + sub.incorrectAnswers;
      timeSpent := timeSpent + sub.timeSpent;
      accuracy := SessionAccuracy(correctAnswers, incorrectAnswers);
      xpGained := xpGained + sub.xpGained;
      completedLessons := Dedup(completedLessons + sub.completedLessons);
    }

    /** The XP step of `recordProgress`: the user's XP grows, the level is
        recomputed, and a level-up adds one achievement worth 50 XP here and
        the 50 bonus XP to the user. */
    method AwardXp(account: XpAccount, gained: int, now: int) returns (levelUp: bool)
      modifies account, this`achievements
      ensures var r := XpAfter(old(account.xp), old(account.level), gained);
        account.xp == r.xp && account.level == r.level && levelUp == r.levelUp
      ensures levelUp ==>
        achievements == old(achievements) + [ProgressAchievement(LevelUpKind, account.level, LevelUpBonus, Some(now))]
      ensures !levelUp ==> achievements == old(achievements)
    {
      account.xp := account.xp + gained;
      var newLevel := account.xp / XpPerLevel + 1;
      levelUp := newLevel > account.level;
      account.level := newLevel;
      if levelUp {
        achievements := achievements + [ProgressAchievement(LevelUpKind, newLevel, LevelUpBonus, Some(now))];
        account.xp := account.xp + LevelUpBonus;
      }
    }
  }

  /** `recordProgress`: 400 when the validators reject the body
      (`requestValid` is their verdict), changing nothing; otherwise merge
      into today's record or create it, then award the XP when the user
      exists, and reply 201 with the record. */
  method RecordProgress(requestValid: bool, existing: DailyRecord?, account: XpAccount?, userId: string,
                        sub: Submission, today: int, now: int)
    returns (status: int, record: DailyRecord?, levelUp: bool)
    requires existing != null ==> existing.Valid()
    modifies existing, account
    ensures !requestValid ==> status == 400 && record == null && !levelUp
    ensures !requestValid && existing != null ==> unchanged(existing)
    ensures !requestValid && account != null ==> unchanged(account)
    ensures requestValid ==> status == 201 && record != null && record.Valid()
    ensures requestValid && existing != null ==>
      record == existing && record.user == old(existing.user) && record.language == old(existing.language)
      && record.date == old(existing.date)
    ensures requestValid && existing == null ==>
      fresh(record) && record.user == userId && record.language == sub.language && record.date == today
    ensures requestValid ==>
      record.sessions == (if existing != null then old(existing.sessions) else []) + [SessionOf(sub, now)]
    ensures requestValid ==>
      record.xpGained == (if existing != null then old(existing.xpGained) else 0) + sub.xpGained
    ensures requestValid ==>
      record.completedLessons == (if existing != null then MergedLessons(old(existing.completedLessons), sub.completedLessons)
                                  else sub.completedLessons)
    ensures requestValid && account == null ==> !levelUp
    ensures requestValid && account != null ==>
      var r := XpAfter(old(account.xp), old(account.level), sub.xpGained);
      account.xp == r.xp && account.level == r.level && levelUp == r.levelUp
    ensures requestValid && levelUp ==>
      account != null &&
      record.achievements == (if existing != null then old(existing.achievements) else [])
                             + [ProgressAchievement(LevelUpKind, account.level, LevelUpBonus, Some(now))]
    ensures requestValid && !levelUp ==>
      record.achievements == (if existing != null then old(existing.achievements) else [])
  {
    if !requestValid {
      return 400, null, false;
    }
    var r: DailyRecord;
    if existing != null {
      existing.Merge(sub, now);
      r := existing;
    } else {
      r := new DailyRecord.Create(userId, sub, today, now);
    }
    levelUp := false;
    if account != null {
      levelUp := r.AwardXp(account, sub.xpGained, now);
    }
    status, record := 201, r;
  }

  /** An achievement as `getAchievements` lists it, with the language and date
      of the record it came from. */
  datatype AchievementView = AchievementView(kind: string, xpReward: int, earnedAt: Option<int>, language: string, date: int)

  /** A day record's achievements, as `getAchievements` reads them. */
  datatype RecordAchievements = RecordAchievements(language: string, date: int, achievements: seq<ProgressAchievement>)

  function Views(language: string, date: int, a: seq<ProgressAchievement>): (r: seq<AchievementView>)
    ensures |r| == |a|
    ensures forall i :: 0 <= i < |r| ==>
      r[i] == AchievementView(a[i].kind, a[i].xpReward, a[i].earnedAt, language, date)
  {
    if a == [] then []
    else [AchievementView(a[0].kind, a[0].xpReward, a[0].earnedAt, language, date)] + Views(language, date, a[1..])
  }

  /** All achievements of the records, record by record. */
  function Flatten(records: seq<RecordAchievements>): seq<AchievementView>
  {
    if records == [] then []
    else Views(records[0].language, records[0].date, records[0].achievements) + Flatten(records[1..])
  }

  /** The display order: earned before unearned, the newest earned first. */
  predicate Precedes(a: AchievementView, b: AchievementView)
  {
    a.earnedAt.Some? && (b.earnedAt.None? || a.earnedAt.value > b.earnedAt.value)
  }

  lemma PrecedesIsStrictOrder()
    ensures StrictOrder(Precedes)
  {
  }

  /** `allAchievements.sort(...)` with the display comparator. */
  function DisplayOrder(s: seq<AchievementView>): (r: seq<AchievementView>)
    ensures multiset(r) == multiset(s)
  {
    SortBy(s, Precedes)
  }

  /** The `category` and `earned` query filters. */
  function Filtered(all: seq<AchievementView>, category: Option<string>, earned: string): (r: seq<AchievementView>)
    ensures forall x :: x in r ==> x in all
    ensures forall x :: x in r ==> category.Some? ==> x.kind == category.value
    ensures earned == "earned" ==> forall x :: x in r ==> x.earnedAt.Some?
    ensures earned == "available" ==> forall x :: x in r ==> x.earnedAt.None?
    ensures forall x :: (x in all && (category.Some? ==> x.kind == category.value)
                         && (earned == "earned" ==> x.earnedAt.Some?)
                         && (earned == "available" ==> x.earnedAt.None?)) ==> x in r
  {
    var byKind := if category.Some? then Filter(all, (a: AchievementView) => a.kind == category.value) else all;
    if earned == "earned" then Filter(byKind, (a: AchievementView) => a.earnedAt.Some?)
    else if earned == "available" then Filter(byKind, (a: AchievementView) => a.earnedAt.None?)
    else byKind
  }

  function SumXp(s: seq<AchievementView>): int
  {
    if s == [] then 0 else s[0].xpReward + SumXp(s[1..])
  }

  datatype AchievementStats = AchievementStats(total: nat, earned: nat, totalXp: int)

  /** The statistics: how many are listed, how many are earned, and the XP of
      the earned ones only. */
  function StatsOf(s: seq<AchievementView>): (st: AchievementStats)
    ensures st.total == |s| && st.earned <= st.total
    ensures (forall x :: x in s ==> x.earnedAt.None?) ==> st.earned == 0 && st.totalXp == 0
  {
    var earned := Filter(s, (a: AchievementView) => a.earnedAt.Some?);
    assert |earned| == 0 || earned[0] in s;
    AchievementStats(|s|, |earned|, SumXp(earned))
  }

  lemma {:induction false} SumXpAppend(s: seq<AchievementView>, x: AchievementView)
    ensures SumXp(s + [x]) == SumXp(s) + x.xpReward
  {
    if s != [] {
      assert (s + [x])[1..] == s[1..] + [x];
      SumXpAppend(s[1..], x);
    }
  }

  /** One more listed achievement: an unearned one changes neither the earned
      count nor the XP; an earned one adds one and its reward. */
  lemma StatsOfAppend(s: seq<AchievementView>, x: AchievementView)
    ensures StatsOf(s + [x]).total == StatsOf(s).total + 1
    ensures x.earnedAt.None? ==>
      StatsOf(s + [x]).earned == StatsOf(s).earned && StatsOf(s + [x]).totalXp == StatsOf(s).totalXp
    ensures x.earnedAt.Some? ==>
      StatsOf(s + [x]).earned == StatsOf(s).earned + 1
      && StatsOf(s + [x]).totalXp == StatsOf(s).totalXp + x.xpReward
  {
    var isEarned := (a: AchievementView) => a.earnedAt.Some?;
    FilterAppend(s, [x], isEarned);
    assert Filter([x], isEarned) == if x.earnedAt.Some? then [x] else [] by {
      assert [x][1..] == [];
    }
    if x.earnedAt.Some? {
      SumXpAppend(Filter(s, isEarned), x);
    } else {
      assert Filter(s, isEarned) + [] == Filter(s, isEarned);
    }
  }

  datatype AchievementReport = AchievementReport(achievements: seq<AchievementView>, stats: AchievementStats)

  /** `getAchievements` over the user's records, newest record first. */
  function GetAchievements(records: seq<RecordAchievements>, category: Option<string>, earned: string): (r: AchievementReport)
    ensures multiset(r.achievements) == multiset(Filtered(Flatten(records), category, earned))
    ensures r.stats == StatsOf(r.achievements)
  {
    var listed := DisplayOrder(Filtered(Flatten(records), category, earned));
    AchievementReport(listed, StatsOf(listed))
  }

  /** The listing is in display order. */
  lemma AchievementsInDisplayOrder(records: seq<RecordAchievements>, category: Option<string>, earned: string)
    ensures SortedBy(GetAchievements(records, category, earned).achievements, Precedes)
  {
    PrecedesIsStrictOrder();
    SortByIsSorted(Filtered(Flatten(records), category, earned), Precedes);
  }

  /** Asking for available achievements reports none earned and no XP. */
  lemma AvailableEarnsNothing(records: seq<RecordAchievements>, category: Option<string>)
    ensures GetAchievements(records, category, "available").stats.earned == 0
    ensures GetAchievements(records, category, "available").stats.totalXp == 0
  {
    var f := Filtered(Flatten(records), category, "available");
    var listed := DisplayOrder(f);
    forall x | x in listed ensures x.earnedAt.None? {
      assert x in multiset(listed);
      assert x in multiset(f);
    }
  }
}
