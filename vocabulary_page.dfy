/** The word list of client/src/pages/Vocabulary.js: the search and the two
    drop-down filters, and the add, edit, delete and mastered-toggle updates,
    each of which builds a new list from the old one. */
module VocabularyPage {
  import opened Common

  /** A word card as the page keeps it. */
  datatype Word = Word(
    id: int,
    word: string,
    translation: string,
    language: string,
    difficulty: string,
    category: string,
    example: string,
    mastered: bool,
    lastReviewed: string)

  /** The add form's fields. */
  datatype Draft = Draft(
    word: string,
    translation: string,
    language: string,
    difficulty: string,
    category: string,
    example: string)

  /** The drop-down value that switches a filter off. */
  const AllOption: string := "all"

  /** The add form as it is shown empty. */
  const EmptyDraft: Draft := Draft("", "", "French", "Beginner", "", "")

  /** The search: the lower-cased term occurs in the lower-cased word,
      translation or category. */
  predicate SearchMatches(w: Word, term: string)
  {
    || Contains(Lower(w.word), Lower(term))
    || Contains(Lower(w.translation), Lower(term))
    || Contains(Lower(w.category), Lower(term))
  }

  /** `filterVocabulary`: the search (when the term is not empty), then the
      language, then the difficulty (each unless set to 'all'). */
  function FilterVocabulary(vocab: seq<Word>, term: string, language: string, difficulty: string): seq<Word>
  {
    var searched := if term != "" then Filter(vocab, (w: Word) => SearchMatches(w, term)) else vocab;
    var byLanguage := if language != AllOption then Filter(searched, (w: Word) => w.language == language) else searched;
    if difficulty != AllOption then Filter(byLanguage, (w: Word) => w.difficulty == difficulty) else byLanguage
  }

  /** A word passes every active filter. */
  predicate Shown(w: Word, term: string, language: string, difficulty: string)
  {
    && (term == "" || SearchMatches(w, term))
    && (language == AllOption || w.language == language)
    && (difficulty == AllOption || w.difficulty == difficulty)
  }

  /** The chain of filters keeps exactly the words `Shown` accepts, in
      order. */
  lemma {:induction false} FilterChainIsOneFilter(vocab: seq<Word>, term: string, language: string, difficulty: string)
    ensures FilterVocabulary(vocab, term, language, difficulty)
            == Filter(vocab, (w: Word) => Shown(w, term, language, difficulty))
    decreases |vocab|
  {
    if vocab != [] {
      FilterChainIsOneFilter(vocab[1..], term, language, difficulty);
    }
  }

  /** The filtered list is an order-preserving subsequence of the list, and
      holds a word exactly when the word is in the list and passes every
      active filter. */
  lemma FilteredIsOrderedSelection(vocab: seq<Word>, term: string, language: string, difficulty: string)
    ensures IsSubsequence(FilterVocabulary(vocab, term, language, difficulty), vocab)
    ensures forall w :: w in FilterVocabulary(vocab, term, language, difficulty)
                        <==> w in vocab && Shown(w, term, language, difficulty)
  {
    FilterChainIsOneFilter(vocab, term, language, difficulty);
    FilterIsSubsequence(vocab, (w: Word) => Shown(w, term, language, difficulty));
  }

  /** With an empty search and both drop-downs on 'all' the whole list
      shows. */
  lemma NoFilterShowsEverything(vocab: seq<Word>)
    ensures FilterVocabulary(vocab, "", AllOption, AllOption) == vocab
  {
  }

  /** Lower-casing twice is lower-casing once. */
  lemma LowerIdempotent(s: string)
    ensures Lower(Lower(s)) == Lower(s)
  {
    assert forall i :: 0 <= i < |s| ==> Lower(Lower(s))[i] == Lower(s)[i];
  }

  /** Filtering by pointwise-equal predicates gives the same list. */
  lemma {:induction false} FilterCongruent<T(!new)>(s: seq<T>, p: T -> bool, q: T -> bool)
    requires forall x :: x in s ==> p(x) == q(x)
    ensures Filter(s, p) == Filter(s, q)
    decreases |s|
  {
    if s != [] {
      assert forall x :: x in s[1..] ==> x in s;
      FilterCongruent(s[1..], p, q);
    }
  }

  /** The search ignores the case of the term: searching for the term or for
      its lower-case form shows the same words. */
  lemma SearchIgnoresCase(vocab: seq<Word>, term: string, language: string, difficulty: string)
    ensures FilterVocabulary(vocab, term, language, difficulty)
            == FilterVocabulary(vocab, Lower(term), language, difficulty)
  {
    LowerIdempotent(term);
    FilterChainIsOneFilter(vocab, term, language, difficulty);
    FilterChainIsOneFilter(vocab, Lower(term), language, difficulty);
    FilterCongruent(vocab, (w: Word) => Shown(w, term, language, difficulty),
                    (w: Word) => Shown(w, Lower(term), language, difficulty));
  }

  /** `handleAddWord`: the draft with a fresh id, not mastered, reviewed
      today, appended at the end. */
  function AddWord(vocab: seq<Word>, draft: Draft, id: int, today: string): (r: seq<Word>)
    ensures |r| == |vocab| + 1 && r[..|vocab|] == vocab
    ensures var w := r[|vocab|];
      && w.id == id && !w.mastered && w.lastReviewed == today
      && w.word == draft.word && w.translation == draft.translation && w.language == draft.language
      && w.difficulty == draft.difficulty && w.category == draft.category && w.example == draft.example
  {
    vocab + [Word(id, draft.word, draft.translation, draft.language, draft.difficulty,
                  draft.category, draft.example, false, today)]
  }

  /** `handleAddWord` on the page state: the list grows by the word and the
      form is emptied. */
  function SubmitAdd(vocab: seq<Word>, draft: Draft, id: int, today: string): (r: (seq<Word>, Draft))
    ensures r.1 == EmptyDraft
    ensures r.0 == AddWord(vocab, draft, id, today)
  {
    (AddWord(vocab, draft, id, today), EmptyDraft)
  }

  /** `handleEditWord`: every word with the edited word's id is replaced by
      it. */
  function EditWord(vocab: seq<Word>, edited: Word): (r: seq<Word>)
    ensures |r| == |vocab|
    ensures forall i :: 0 <= i < |r| ==> r[i] == (if vocab[i].id == edited.id then edited else vocab[i])
  {
    if vocab == [] then []
    else [if vocab[0].id == edited.id then edited else vocab[0]] + EditWord(vocab[1..], edited)
  }

  /** Editing keeps every id in its place and saving the same edit twice
      changes nothing more. */
  lemma EditKeepsIdsAndIsIdempotent(vocab: seq<Word>, edited: Word)
    ensures forall i :: 0 <= i < |vocab| ==> EditWord(vocab, edited)[i].id == vocab[i].id
    ensures EditWord(EditWord(vocab, edited), edited) == EditWord(vocab, edited)
  {
  }

  /** `handleDeleteWord` once confirmed. */
  function DeleteWord(vocab: seq<Word>, id: int): seq<Word>
  {
    Filter(vocab, (w: Word) => w.id != id)
  }

  /** Deleting removes every word with that id and keeps all the others, in
      order. */
  lemma DeleteRemovesOnlyThatId(vocab: seq<Word>, id: int)
    ensures forall w :: w in DeleteWord(vocab, id) <==> w in vocab && w.id != id
    ensures IsSubsequence(DeleteWord(vocab, id), vocab)
    ensures (forall w :: w in vocab ==> w.id != id) ==> DeleteWord(vocab, id) == vocab
  {
    FilterIsSubsequence(vocab, (w: Word) => w.id != id);
  }

  /** `toggleMastered`. */
  function ToggleMastered(vocab: seq<Word>, id: int): (r: seq<Word>)
    ensures |r| == |vocab|
    ensures forall i :: 0 <= i < |r| ==>
      r[i] == (if vocab[i].id == id then vocab[i].(mastered := !vocab[i].mastered) else vocab[i])
  {
    if vocab == [] then []
    else [if vocab[0].id == id then vocab[0].(mastered := !vocab[0].mastered) else vocab[0]]
         + ToggleMastered(vocab[1..], id)
  }

  /** Toggling the same word twice restores the list. */
  lemma ToggleTwiceRestores(vocab: seq<Word>, id: int)
    ensures ToggleMastered(ToggleMastered(vocab, id), id) == vocab
  {
    var r := ToggleMastered(ToggleMastered(vocab, id), id);
    assert forall i :: 0 <= i < |vocab| ==> r[i] == vocab[i];
  }

  /** The "Mastered" figure. */
  function MasteredCount(vocab: seq<Word>): nat
  {
    |Filter(vocab, (w: Word) => w.mastered)|
  }

  /** The "Learning" figure. */
  function LearningCount(vocab: seq<Word>): nat
  {
    |Filter(vocab, (w: Word) => !w.mastered)|
  }

  /** Every word is counted as mastered or as learning, never both. */
  lemma {:induction false} CountsAddUp(vocab: seq<Word>)
    ensures MasteredCount(vocab) + LearningCount(vocab) == |vocab|
    decreases |vocab|
  {
    if vocab != [] {
      CountsAddUp(vocab[1..]);
    }
  }

  /** A new word counts as learning. */
  lemma AddedWordIsLearning(vocab: seq<Word>, draft: Draft, id: int, today: string)
    ensures MasteredCount(AddWord(vocab, draft, id, today)) == MasteredCount(vocab)
    ensures LearningCount(AddWord(vocab, draft, id, today)) == LearningCount(vocab) + 1
  {
    var w := AddWord(vocab, draft, id, today)[|vocab|];
    FilterAppend(vocab, [w], (x: Word) => x.mastered);
    FilterAppend(vocab, [w], (x: Word) => !x.mastered);
  }
}
