/** `learningReducer` of client/src/contexts/LearningContext.js: the client's
    lessons, current lesson, vocabulary, progress, per-slice loading flags
    and error. Lessons, words and progress entries are plain objects. A
    reducer call that would throw (an update of lesson progress before any
    progress is loaded) yields None. */
module LearningContext {
  import opened Common

  /** The loaded progress; `lessonProgress` may be missing. */
  datatype ProgressState = ProgressState(fields: JsObject, lessonProgress: Option<seq<JsObject>>)

  datatype LearningState = LearningState(
    lessons: seq<JsObject>,
    currentLesson: Option<JsObject>,
    vocabulary: seq<JsObject>,
    progress: Option<ProgressState>,
    loading: map<string, bool>,
    error: Option<string>)

  datatype LearningAction =
    | SetLoading(key: string, on: bool)
    | SetLessons(lessons: seq<JsObject>)
    | SetCurrentLesson(lesson: Option<JsObject>)
    | SetVocabulary(words: seq<JsObject>)
    | SetProgress(progress: Option<ProgressState>)
    | UpdateLessonProgress(entry: JsObject)
    | AddVocabulary(word: JsObject)
    | UpdateVocabulary(word: JsObject)
    | SetError(errorKey: string, message: Option<string>)
    | ClearError
    | Unknown(name: string)

  /** The state the provider starts from. */
  function InitialState(): (s: LearningState)
    ensures s.lessons == [] && s.vocabulary == [] && s.currentLesson.None? && s.progress.None?
    ensures s.error.None? && s.loading.Keys == {"lessons", "currentLesson", "vocabulary", "progress"}
    ensures forall k :: k in s.loading ==> !s.loading[k]
  {
    LearningState([], None, [], None,
      map["lessons" := false, "currentLesson" := false, "vocabulary" := false, "progress" := false], None)
  }

  /** `list.map(x => x._id === p._id ? { ...x, ...p } : x)` on key `key`;
      two objects without the key match each other (`undefined === undefined`). */
  function MergeMatching(list: seq<JsObject>, key: string, p: JsObject): (r: seq<JsObject>)
    ensures |r| == |list|
    ensures forall i :: 0 <= i < |list| ==>
      r[i] == (if Field(list[i], key) == Field(p, key) then Spread(list[i], p) else list[i])
  {
    if list == [] then []
    else
      [if Field(list[0], key) == Field(p, key) then Spread(list[0], p) else list[0]]
        + MergeMatching(list[1..], key, p)
  }

  /** Applying the same update twice is applying it once. */
  lemma {:induction false} MergeMatchingIdempotent(list: seq<JsObject>, key: string, p: JsObject)
    ensures MergeMatching(MergeMatching(list, key, p), key, p) == MergeMatching(list, key, p)
  {
    var once := MergeMatching(list, key, p);
    var twice := MergeMatching(once, key, p);
    forall i | 0 <= i < |list| ensures twice[i] == once[i] {
      if Field(list[i], key) == Field(p, key) {
        assert once[i] == Spread(list[i], p);
        assert Field(once[i], key) == Field(p, key);
      }
    }
  }

  /** `learningReducer`. */
  function Reduce(s: LearningState, a: LearningAction): (r: Option<LearningState>)
    ensures r.None? <==> a.UpdateLessonProgress? && (s.progress.None? || s.progress.value.lessonProgress.None?)
  {
    match a
    case SetLoading(key, on) => Some(s.(loading := s.loading[key := on]))
    case SetLessons(lessons) => Some(s.(lessons := lessons, loading := s.loading["lessons" := false]))
    case SetCurrentLesson(lesson) => Some(s.(currentLesson := lesson, loading := s.loading["currentLesson" := false]))
    case SetVocabulary(words) => Some(s.(vocabulary := words, loading := s.loading["vocabulary" := false]))
    case SetProgress(progress) => Some(s.(progress := progress, loading := s.loading["progress" := false]))
    case UpdateLessonProgress(entry) =>
      if s.progress.None? || s.progress.value.lessonProgress.None? then None
      else
        var lp := MergeMatching(s.progress.value.lessonProgress.value, "lessonId", entry);
        Some(s.(progress := Some(s.progress.value.(lessonProgress := Some(lp)))))
    case AddVocabulary(word) => Some(s.(vocabulary := s.vocabulary + [word]))
    case UpdateVocabulary(word) => Some(s.(vocabulary := MergeMatching(s.vocabulary, "_id", word)))
    case SetError(key, message) => Some(s.(error := message, loading := s.loading[key := false]))
    case ClearError => Some(s.(error := None))
    case Unknown(_) => Some(s)
  }

  /** SET_LOADING changes one loading flag and nothing else. */
  lemma SetLoadingTouchesOneFlag(s: LearningState, key: string, on: bool)
    ensures var r := Reduce(s, SetLoading(key, on)).value;
      r.(loading := s.loading) == s && r.loading[key] == on
      && forall k :: k in s.loading && k != key ==> k in r.loading && r.loading[k] == s.loading[k]
  {
  }

  /** Each SET action replaces its slice and clears that slice's loading flag,
      leaving the other slices alone. */
  lemma SetActionsReplaceTheirSlice(s: LearningState, lessons: seq<JsObject>, words: seq<JsObject>, p: Option<ProgressState>, l: Option<JsObject>)
    ensures Reduce(s, SetLessons(lessons)).value == s.(lessons := lessons, loading := s.loading["lessons" := false])
    ensures Reduce(s, SetVocabulary(words)).value.vocabulary == words
    ensures Reduce(s, SetVocabulary(words)).value.lessons == s.lessons
    ensures !Reduce(s, SetVocabulary(words)).value.loading["vocabulary"]
    ensures Reduce(s, SetProgress(p)).value.progress == p && !Reduce(s, SetProgress(p)).value.loading["progress"]
    ensures Reduce(s, SetCurrentLesson(l)).value.currentLesson == l
    ensures !Reduce(s, SetCurrentLesson(l)).value.loading["currentLesson"]
  {
  }

  /** ADD_VOCABULARY appends; UPDATE_VOCABULARY keeps length and order and
      merges only into the entries with the payload's `_id`. */
  lemma VocabularyActions(s: LearningState, word: JsObject)
    ensures var r := Reduce(s, AddVocabulary(word)).value.vocabulary;
      |r| == |s.vocabulary| + 1 && r[|s.vocabulary|] == word && r[..|s.vocabulary|] == s.vocabulary
    ensures var r := Reduce(s, UpdateVocabulary(word)).value.vocabulary;
      |r| == |s.vocabulary| &&
      forall i :: 0 <= i < |r| ==>
        (Field(s.vocabulary[i], "_id") != Field(word, "_id") ==> r[i] == s.vocabulary[i])
        && (Field(s.vocabulary[i], "_id") == Field(word, "_id") ==> r[i] == Spread(s.vocabulary[i], word))
  {
  }

  /** UPDATE_LESSON_PROGRESS, once progress with a lesson list is loaded,
      merges the payload into the entries with its `lessonId`, keeps the
      list's length and order and the other entries, and changes no other
      part of the state. */
  lemma UpdateLessonProgressMerges(s: LearningState, entry: JsObject)
    requires s.progress.Some? && s.progress.value.lessonProgress.Some?
    ensures var r := Reduce(s, UpdateLessonProgress(entry));
      var old_lp := s.progress.value.lessonProgress.value;
      r.Some? && r.value.progress.Some? && r.value.progress.value.lessonProgress.Some?
      && r.value.(progress := s.progress) == s
      && r.value.progress.value.fields == s.progress.value.fields
      && var lp := r.value.progress.value.lessonProgress.value;
      |lp| == |old_lp| &&
      forall i :: 0 <= i < |lp| ==>
        (Field(old_lp[i], "lessonId") != Field(entry, "lessonId") ==> lp[i] == old_lp[i])
        && (Field(old_lp[i], "lessonId") == Field(entry, "lessonId") ==> lp[i] == Spread(old_lp[i], entry))
  {
  }

  /** SET_ERROR records the error and clears its loading flag; CLEAR_ERROR only
      forgets the error; an unknown action changes nothing. */
  lemma ErrorAndUnknownActions(s: LearningState, key: string, message: Option<string>, name: string)
    ensures Reduce(s, SetError(key, message)).value == s.(error := message, loading := s.loading[key := false])
    ensures Reduce(s, ClearError).value == s.(error := None)
    ensures Reduce(s, Unknown(name)) == Some(s)
  {
  }
}
