/** The static lesson catalogue of client/src/data/lessons.js and its
    lookups. The catalogue is an object of languages, each an object of level
    names to lesson lists; object keys are kept in insertion order as
    association lists. */
module LessonCatalogue {
  import opened Common

  /** A catalogue lesson, as far as the lookups read it. */
  datatype CatalogueLesson = CatalogueLesson(id: string, title: string, level: string)

  type Levels = seq<(string, seq<CatalogueLesson>)>
  type Catalogue = seq<(string, Levels)>

  /** `obj[key]` for an association list: the first entry with that key. */
  function Get<V>(entries: seq<(string, V)>, key: string): (r: Option<V>)
    ensures r.None? <==> forall i :: 0 <= i < |entries| ==> entries[i].0 != key
    ensures r.Some? ==> exists i :: 0 <= i < |entries| && entries[i] == (key, r.value)
  {
    if entries == [] then None
    else if entries[0].0 == key then Some(entries[0].1)
    else
      var r := Get(entries[1..], key);
      assert r.Some? ==> exists i :: 0 <= i < |entries| && entries[i] == (key, r.value) by {
        if r.Some? {
          var i :| 0 <= i < |entries[1..]| && entries[1..][i] == (key, r.value);
          assert entries[i + 1] == (key, r.value);
        }
      }
      r
  }

  /** `obj[key] || []` for a level's lesson list. */
  function LevelLessons(levels: Levels, level: string): seq<CatalogueLesson>
  {
    match Get(levels, level)
    case Some(lessons) => lessons
    case None => []
  }

  /** `getLessonsByLanguage(language, level = 'all')`. */
  function LessonsByLanguage(cat: Catalogue, language: string, level: Option<string>): (r: seq<CatalogueLesson>)
    ensures Get(cat, language).None? ==> r == []
    ensures Get(cat, language).Some? && (level.None? || level.value == "all") ==>
      r == LevelLessons(Get(cat, language).value, "beginner")
           + LevelLessons(Get(cat, language).value, "intermediate")
           + LevelLessons(Get(cat, language).value, "advanced")
    ensures Get(cat, language).Some? && level.Some? && level.value != "all" ==>
      r == LevelLessons(Get(cat, language).value, level.value)
  {
    match Get(cat, language)
    case None => []
    case Some(levels) =>
      if level.None? || level.value == "all" then
        LevelLessons(levels, "beginner") + LevelLessons(levels, "intermediate") + LevelLessons(levels, "advanced")
      else LevelLessons(levels, level.value)
  }

  /** 'all' lists exactly the lessons of the three named levels. */
  lemma AllIsTheThreeLevels(cat: Catalogue, language: string, x: CatalogueLesson)
    requires Get(cat, language).Some?
    ensures var levels := Get(cat, language).value;
      x in LessonsByLanguage(cat, language, None) <==>
        x in LevelLessons(levels, "beginner") || x in LevelLessons(levels, "intermediate")
        || x in LevelLessons(levels, "advanced")
  {
  }

  /** `getAvailableLanguages()`: the catalogue's keys, in order. */
  function AvailableLanguages(cat: Catalogue): (r: seq<string>)
    ensures |r| == |cat|
    ensures forall i :: 0 <= i < |r| ==> r[i] == cat[i].0
  {
    if cat == [] then [] else [cat[0].0] + AvailableLanguages(cat[1..])
  }

  /** A language is available exactly when the catalogue has lessons for it. */
  lemma AvailableMeansListed(cat: Catalogue, language: string)
    ensures language in AvailableLanguages(cat) <==> Get(cat, language).Some?
  {
    var r := AvailableLanguages(cat);
    if language in r {
      var i :| 0 <= i < |r| && r[i] == language;
      assert cat[i].0 == language;
    }
    if Get(cat, language).Some? {
      var i :| 0 <= i < |cat| && cat[i] == (language, Get(cat, language).value);
      assert r[i] == language;
    }
  }

  /** Every lesson of the catalogue, language by language, level by level. */
  function AllLessons(cat: Catalogue): seq<CatalogueLesson>
  {
    if cat == [] then [] else LevelsLessons(cat[0].1) + AllLessons(cat[1..])
  }

  function LevelsLessons(levels: Levels): seq<CatalogueLesson>
  {
    if levels == [] then [] else levels[0].1 + LevelsLessons(levels[1..])
  }

  /** `lessons.findIndex(l => l.id === id)`. */
  function IndexOfId(lessons: seq<CatalogueLesson>, id: string): (r: Option<nat>)
    ensures r.None? <==> forall i :: 0 <= i < |lessons| ==> lessons[i].id != id
    ensures r.Some? ==> r.value < |lessons| && lessons[r.value].id == id
                        && forall i :: 0 <= i < r.value ==> lessons[i].id != id
  {
    FindFirst(lessons, (l: CatalogueLesson) => l.id == id)
  }

  /** The lesson at `IndexOfId`, if any: the first lesson with that id. */
  function FirstWithId(lessons: seq<CatalogueLesson>, id: string): (r: Option<CatalogueLesson>)
    ensures r.None? <==> forall i :: 0 <= i < |lessons| ==> lessons[i].id != id
    ensures r.Some? ==> exists k :: 0 <= k < |lessons| && lessons[k] == r.value && r.value.id == id
                                   && forall i :: 0 <= i < k ==> lessons[i].id != id
  {
    match IndexOfId(lessons, id)
    case Some(k) => Some(lessons[k])
    case None => None
  }

  /** Searching a concatenation searches the first part, then the second. */
  lemma FirstWithIdAppend(a: seq<CatalogueLesson>, b: seq<CatalogueLesson>, id: string)
    ensures FirstWithId(a + b, id) == if FirstWithId(a, id).Some? then FirstWithId(a, id) else FirstWithId(b, id)
  {
    assert forall i :: 0 <= i < |a| ==> (a + b)[i] == a[i];
    assert forall i :: 0 <= i < |b| ==> (a + b)[|a| + i] == b[i];
    var r := IndexOfId(a + b, id);
    match IndexOfId(a, id)
    case Some(k) =>
      assert (a + b)[k].id == id;
    case None =>
      match IndexOfId(b, id)
      case Some(k) =>
        assert (a + b)[|a| + k].id == id;
        assert forall i :: 0 <= i < |a| + k ==> (a + b)[i].id != id by {
          forall i | 0 <= i < |a| + k
            ensures (a + b)[i].id != id
          {
            if i >= |a| {
              assert (a + b)[i] == b[i - |a|];
            }
          }
        }
      case None =>
        assert forall i :: 0 <= i < |a + b| ==> (a + b)[i].id != id by {
          forall i | 0 <= i < |a + b|
            ensures (a + b)[i].id != id
          {
            if i >= |a| {
              assert (a + b)[i] == b[i - |a|];
            }
          }
        }
  }

  /** The first lesson with that id in the language's levels, level by level. */
  function FindInLevels(levels: Levels, id: string): (r: Option<CatalogueLesson>)
    ensures r == FirstWithId(LevelsLessons(levels), id)
    ensures r.Some? ==> r.value.id == id && r.value in LevelsLessons(levels)
    ensures r.None? <==> forall l :: l in LevelsLessons(levels) ==> l.id != id
  {
    if levels == [] then None
    else
      FirstWithIdAppend(levels[0].1, LevelsLessons(levels[1..]), id);
      match IndexOfId(levels[0].1, id)
      case Some(k) => Some(levels[0].1[k])
      case None => FindInLevels(levels[1..], id)
  }

  /** The first lesson with that id, scanning languages, then levels. */
  function FindById(cat: Catalogue, id: string): (r: Option<CatalogueLesson>)
    ensures r == FirstWithId(AllLessons(cat), id)
    ensures r.Some? ==> r.value.id == id && r.value in AllLessons(cat)
    ensures r.None? <==> forall l :: l in AllLessons(cat) ==> l.id != id
  {
    if cat == [] then None
    else
      FirstWithIdAppend(LevelsLessons(cat[0].1), AllLessons(cat[1..]), id);
      match FindInLevels(cat[0].1, id)
      case Some(l) => Some(l)
      case None => FindById(cat[1..], id)
  }

  /** `getLessonById`: the nested scan with an early return. */
  method GetLessonById(cat: Catalogue, id: string) returns (r: Option<CatalogueLesson>)
    ensures r == FindById(cat, id)
  {
    var i := 0;
    while i < |cat|
      invariant 0 <= i <= |cat|
      invariant FindById(cat[i..], id) == FindById(cat, id)
    {
      var levels := cat[i].1;
      var j := 0;
      while j < |levels|
        invariant 0 <= j <= |levels|
        invariant FindInLevels(levels[j..], id) == FindInLevels(levels, id)
      {
        var found := IndexOfId(levels[j].1, id);
        if found.Some? {
          assert levels[j..][0] == levels[j];
          assert cat[i..][0] == cat[i];
          return Some(levels[j].1[found.value]);
        }
        assert levels[j..][1..] == levels[j + 1..];
        j := j + 1;
      }
      assert cat[i..][0] == cat[i];
      assert cat[i..][1..] == cat[i + 1..];
      i := i + 1;
    }
    return None;
  }
}
