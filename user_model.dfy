/** The user document of server/models/User.js: the `level` virtual, the daily
    study streak (`updateStreak`) and achievement insertion (`addAchievement`).
    Times are milliseconds and "today" is a parameter. */
module UserModel {
  import opened Common

  const MsPerDay: int := 86400000

  /** The point totals at which levels 2, 3, 4 and 5 start. */
  const LevelThresholds: seq<int> := [100, 500, 1500, 3000]

  datatype Achievement = Achievement(name: string, description: string, icon: string, unlockedAt: int)

  datatype LearningLanguage = LearningLanguage(language: string, level: string, startDate: int)

  datatype UserStats = UserStats(
    totalPoints: int,
    currentStreak: nat,
    longestStreak: nat,
    lastStudyDate: Option<int>)

  /** The `level` virtual: 1 below 100 points, then 2, 3, 4 from 100, 500 and
      1500, and 5 from 3000. */
  function Level(points: int): (l: int)
    ensures 1 <= l <= 5
    ensures l == 1 <==> points < 100
    ensures l == 5 <==> points >= 3000
  {
    if points < 100 then 1
    else if points < 500 then 2
    else if points < 1500 then 3
    else if points < 3000 then 4
    else 5
  }

  /** How many of the thresholds `points` has reached. */
  function ThresholdsReached(thresholds: seq<int>, points: int): nat
  {
    if thresholds == [] then 0
    else (if points >= thresholds[0] then 1 else 0) + ThresholdsReached(thresholds[1..], points)
  }

  /** The level is one more than the number of thresholds reached. */
  lemma LevelCountsThresholds(points: int)
    ensures Level(points) == 1 + ThresholdsReached(LevelThresholds, points)
  {
    var t := LevelThresholds;
    var b := (p: bool) => if p then 1 else 0;
    assert t[3..][1..] == [] && t[2..][1..] == t[3..] && t[1..][1..] == t[2..];
    assert ThresholdsReached(t[3..], points) == b(points >= 3000);
    assert ThresholdsReached(t[2..], points) == b(points >= 1500) + b(points >= 3000);
    assert ThresholdsReached(t[1..], points) == b(points >= 500) + b(points >= 1500) + b(points >= 3000);
  }

  lemma LevelMonotone(p: int, q: int)
    requires p <= q
    ensures Level(p) <= Level(q)
  {
  }

  /** What `updateStreak` keeps true: the current streak never exceeds the
      longest, and once a study day is recorded the streak is at least 1. */
  predicate StreakValid(s: UserStats)
  {
    s.currentStreak <= s.longestStreak && (s.lastStudyDate.Some? ==> s.currentStreak >= 1)
  }

  /** `Math.floor((today - lastStudy) / (1000 * 60 * 60 * 24))`. */
  function DaysBetween(last: int, today: int): int
  {
    (today - last) / MsPerDay
  }

  /** The stats after `updateStreak` on `today`. */
  function StreakAfter(s: UserStats, today: int): (r: UserStats)
    ensures r.lastStudyDate == Some(today) && r.totalPoints == s.totalPoints
    ensures s.lastStudyDate.None? ==> r.currentStreak == 1 && r.longestStreak == 1
    ensures s.lastStudyDate.Some? && DaysBetween(s.lastStudyDate.value, today) == 1 ==>
      r.currentStreak == s.currentStreak + 1 && r.longestStreak == Max(s.longestStreak, s.currentStreak + 1)
    ensures s.lastStudyDate.Some? && DaysBetween(s.lastStudyDate.value, today) > 1 ==>
      r.currentStreak == 1 && r.longestStreak == s.longestStreak
    ensures s.lastStudyDate.Some? && DaysBetween(s.lastStudyDate.value, today) < 1 ==>
      r.currentStreak == s.currentStreak && r.longestStreak == s.longestStreak
    ensures StreakValid(s) ==> StreakValid(r)
    ensures s.lastStudyDate.Some? ==> r.longestStreak >= s.longestStreak
  {
    match s.lastStudyDate
    case None => s.(currentStreak := 1, longestStreak := 1, lastStudyDate := Some(today))
    case Some(last) =>
      var days := DaysBetween(last, today);
      if days == 1 then
        s.(currentStreak := s.currentStreak + 1, longestStreak := Max(s.longestStreak, s.currentStreak + 1),
           lastStudyDate := Some(today))
      else if days > 1 then
        s.(currentStreak := 1, lastStudyDate := Some(today))
      else
        s.(lastStudyDate := Some(today))
  }

  /** Studying on each of `k` consecutive days, starting from no study
      history, builds a streak of `k` that is also the longest. */
  function StudyDays(s: UserStats, first: int, k: nat): UserStats
  {
    if k == 0 then s else StreakAfter(StudyDays(s, first, k - 1), first + (k - 1) * MsPerDay)
  }

  lemma {:induction false} ConsecutiveDaysBuildStreak(s: UserStats, first: int, k: nat)
    requires s.lastStudyDate.None? && k >= 1
    ensures StudyDays(s, first, k).currentStreak == k
    ensures StudyDays(s, first, k).longestStreak == k
    ensures StudyDays(s, first, k).lastStudyDate == Some(first + (k - 1) * MsPerDay)
  {
    if k > 1 {
      ConsecutiveDaysBuildStreak(s, first, k - 1);
      var prev := first + (k - 2) * MsPerDay;
      var next := first + (k - 1) * MsPerDay;
      assert next - prev == MsPerDay;
      assert DaysBetween(prev, next) == 1;
    }
  }

  /** Studying twice on the same day changes neither streak. */
  lemma SameDayKeepsStreak(s: UserStats, today: int)
    requires s.lastStudyDate.Some?
    ensures var once := StreakAfter(s, today);
      StreakAfter(once, today).currentStreak == once.currentStreak
      && StreakAfter(once, today).longestStreak == once.longestStreak
  {
  }

  /** No two achievements share a name. */
  predicate NamesDistinct(a: seq<Achievement>)
  {
    forall i, j :: 0 <= i < j < |a| ==> a[i].name != a[j].name
  }

  predicate HasAchievement(a: seq<Achievement>, name: string)
  {
    exists i :: 0 <= i < |a| && a[i].name == name
  }

  /** `\w`: an ASCII letter, digit or underscore. */
  predicate IsWordChar(c: char)
  {
    ('a' <= c <= 'z') || ('A' <= c <= 'Z') || ('0' <= c <= '9') || c == '_'
  }

  /** `\w+([.-]?\w+)*`: word characters, with single dots or hyphens only
      between them. */
  predicate WordChain(s: string)
  {
    && |s| > 0 && IsWordChar(s[0]) && IsWordChar(s[|s| - 1])
    && (forall i :: 0 <= i < |s| ==> IsWordChar(s[i]) || s[i] == '.' || s[i] == '-')
    && (forall i :: 0 <= i < |s| - 1 ==> IsWordChar(s[i]) || IsWordChar(s[i + 1]))
  }

  predicate AllWordChars(s: string)
  {
    forall i :: 0 <= i < |s| ==> IsWordChar(s[i])
  }

  /** `\w+([.-]?\w+)*(\.\w{2,3})+` after the `@`: a chain ending in a dot
      and two or three word characters. Several `\.\w{2,3}` groups need no
      case of their own, since all but the last extend the chain. */
  predicate SchemaDomain(d: string)
  {
    || (|d| >= 4 && d[|d| - 3] == '.' && WordChain(d[..|d| - 3]) && AllWordChars(d[|d| - 2..]))
    || (|d| >= 5 && d[|d| - 4] == '.' && WordChain(d[..|d| - 4]) && AllWordChars(d[|d| - 3..]))
  }

  /** The position of the first `@`, if any. */
  function FirstAt(e: string): (k: Option<nat>)
    ensures k.None? <==> forall i :: 0 <= i < |e| ==> e[i] != '@'
    ensures k.Some? ==> k.value < |e| && e[k.value] == '@' && forall i :: 0 <= i < k.value ==> e[i] != '@'
  {
    FindFirst(e, (c: char) => c == '@')
  }

  /** The `match` of the schema's `email` path. Neither side of the pattern
      holds an `@`, so the address is split at its first one. */
  predicate SchemaEmail(e: string)
  {
    var k := FirstAt(e);
    k.Some? && WordChain(e[..k.value]) && SchemaDomain(e[k.value + 1..])
  }

  /** An address the pattern accepts has exactly one `@`. */
  lemma SchemaEmailHasOneAt(e: string, j: nat)
    requires SchemaEmail(e) && j < |e| && e[j] == '@'
    ensures j == FirstAt(e).value
  {
    var k := FirstAt(e).value;
    DomainHasNoAt(e[k + 1..]);
  }

  /** No character of an accepted domain is an `@`. */
  lemma DomainHasNoAt(d: string)
    requires SchemaDomain(d)
    ensures forall m :: 0 <= m < |d| ==> d[m] != '@'
  {
    var c := if |d| >= 4 && d[|d| - 3] == '.' && WordChain(d[..|d| - 3]) && AllWordChars(d[|d| - 2..]) then 3 else 4;
    forall m | 0 <= m < |d| ensures d[m] != '@' {
      if m < |d| - c {
        assert d[m] == d[..|d| - c][m];
      } else if m > |d| - c {
        assert d[m] == d[|d| - c + 1..][m - (|d| - c + 1)];
      }
    }
  }

  /** A local part and a name that are chains, joined by `@` and followed by
      a dot and a three-character ending, form an accepted address. */
  lemma {:induction false} AcceptedParts(local: string, name: string, ending: string)
    requires WordChain(local) && WordChain(name) && AllWordChars(ending) && |ending| == 3
    ensures SchemaEmail(local + "@" + name + "." + ending)
  {
    var e := local + "@" + name + "." + ending;
    var n := |local|;
    assert FirstAt(e) == Some(n) by {
      forall i | 0 <= i < n ensures e[i] != '@' {
        assert e[i] == local[i];
      }
      assert e[n] == '@';
    }
    var d := name + "." + ending;
    assert e[..n] == local && e[n + 1..] == d;
    assert d[..|d| - 4] == name && d[|d| - 3..] == ending;
  }

  /** The pattern accepts a plain address with a three-letter ending. */
  lemma SchemaEmailAcceptsPlainAddress()
    ensures SchemaEmail("ana@example.com")
  {
    PlainAddressParts();
    AcceptedParts("ana", "example", "com");
  }

  lemma PlainAddressParts()
    ensures WordChain("ana") && WordChain("example") && AllWordChars("com")
    ensures "ana" + "@" + "example" + "." + "com" == "ana@example.com"
  {
  }

  /** The address whose local part is `local` and whose domain is `domain`,
      when `local` holds no `@`, is refused when either side is. */
  lemma {:induction false} RefusedSide(local: string, domain: string)
    requires forall i :: 0 <= i < |local| ==> local[i] != '@'
    requires !WordChain(local) || !SchemaDomain(domain)
    ensures !SchemaEmail(local + "@" + domain)
  {
    var e := local + "@" + domain;
    var n := |local|;
    assert e[n] == '@';
    assert FirstAt(e) == Some(n) by {
      forall i | 0 <= i < n ensures e[i] != '@' {
        assert e[i] == local[i];
      }
    }
    assert e[..n] == local && e[n + 1..] == domain;
  }

  /** The pattern refuses a four-letter ending, which an address validator
      such as the route's `isEmail()` accepts. */
  lemma SchemaEmailRefusesLongEnding()
    ensures !SchemaEmail("ana@example.info")
  {
    var d := "example.info";
    assert d[|d| - 3] == 'n' && d[|d| - 4] == 'i';
    RefusedSide("ana", d);
    assert "ana" + "@" + d == "ana@example.info";
  }

  /** The pattern refuses a `+` in the local part, which an address
      validator such as the route's `isEmail()` accepts. */
  lemma SchemaEmailRefusesPlus()
    ensures !SchemaEmail("ana+tag@example.com")
  {
    var l := "ana+tag";
    assert l[3] == '+';
    RefusedSide(l, "example.com");
    assert l + "@" + "example.com" == "ana+tag@example.com";
  }

  /** The schema's `preferences` defaults, each value as its string form. */
  const DefaultPreferences: map<string, string> :=
    map["studyGoal" := "15", "reminderTime" := "18:00", "enableReminders" := "true", "theme" := "auto"]

  /** A user document, as far as the core reads and writes it. */
  class User {
    var id: string
    var email: string
    var name: string
    var role: string
    var nativeLanguage: string
    var learningLanguages: seq<LearningLanguage>
    var preferences: map<string, string>
    var stats: UserStats
    var achievements: seq<Achievement>

    predicate Valid()
      reads this
    {
      StreakValid(stats) && NamesDistinct(achievements)
    }

    /** A new user with the schema's defaults. */
    constructor (id: string, email: string, name: string, nativeLanguage: string)
      ensures Valid()
      ensures this.id == id && this.email == email && this.name == name && this.nativeLanguage == nativeLanguage
      ensures role == "user" && preferences == DefaultPreferences
      ensures learningLanguages == [] && achievements == []
      ensures stats == UserStats(0, 0, 0, None)
    {
      this.id, this.email, this.name := id, email, name;
      role := "user";
      this.nativeLanguage := nativeLanguage;
      learningLanguages := [];
      preferences := DefaultPreferences;
      stats := UserStats(0, 0, 0, None);
      achievements := [];
    }

    /** `updateStreak`. */
    method UpdateStreak(today: int)
      requires Valid()
      modifies this`stats
      ensures Valid()
      ensures stats == StreakAfter(old(stats), today)
    {
      var lastStudy := stats.lastStudyDate;
      if lastStudy.None? {
        stats := stats.(currentStreak := 1, longestStreak := 1);
      } else {
        var daysDiff := (today - lastStudy.value) / MsPerDay;
        if daysDiff == 1 {
          stats := stats.(currentStreak := stats.currentStreak + 1);
          if stats.currentStreak > stats.longestStreak {
            stats := stats.(longestStreak := stats.currentStreak);
          }
        } else if daysDiff > 1 {
          stats := stats.(currentStreak := 1);
        }
      }
      stats := stats.(lastStudyDate := Some(today));
    }

    /** `addAchievement`: appends and answers true exactly when no achievement
        of that name exists yet. */
    method AddAchievement(a: Achievement) returns (added: bool)
      requires Valid()
      modifies this`achievements
      ensures Valid()
      ensures added <==> !HasAchievement(old(achievements), a.name)
      ensures added ==> achievements == old(achievements) + [a]
      ensures !added ==> achievements == old(achievements)
      ensures HasAchievement(achievements, a.name)
    {
      var i := 0;
      while i < |achievements|
        invariant 0 <= i <= |achievements|
        invariant forall j :: 0 <= j < i ==> achievements[j].name != a.name
      {
        if achievements[i].name == a.name {
          return false;
        }
        i := i + 1;
      }
      achievements := achievements + [a];
      assert achievements[|achievements| - 1] == a;
      return true;
    }
  }
}
