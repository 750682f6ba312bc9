/** The flashcard session of client/src/pages/Flashcards.js: the deck, the
    current card (-1 once the session is over), whether it is flipped, and
    the session counters. The progress request an answer sends is returned
    to the caller instead of being sent. */
module Flashcards {
  import opened Common

  /** `sessionStats`. */
  datatype SessionStats = SessionStats(total: nat, correct: nat, incorrect: nat, streak: nat)

  /** The card index that marks the end of a session. */
  const SessionOver: int := -1

  /** The counters after one answer. */
  function AfterAnswer(s: SessionStats, isCorrect: bool): (r: SessionStats)
    ensures r.total == s.total
    ensures r.correct + r.incorrect == s.correct + s.incorrect + 1
    ensures isCorrect ==> r.correct == s.correct + 1 && r.incorrect == s.incorrect && r.streak == s.streak + 1
    ensures !isCorrect ==> r.correct == s.correct && r.incorrect == s.incorrect + 1 && r.streak == 0
  {
    if isCorrect then s.(correct := s.correct + 1, streak := s.streak + 1)
    else s.(incorrect := s.incorrect + 1, streak := 0)
  }

  /** The counters after a run of answers from a fresh session. */
  function Replay(total: nat, answers: seq<bool>): SessionStats
  {
    if answers == [] then SessionStats(total, 0, 0, 0)
    else AfterAnswer(Replay(total, answers[..|answers| - 1]), answers[|answers| - 1])
  }

  function CountOf(answers: seq<bool>, b: bool): nat
  {
    if answers == [] then 0
    else CountOf(answers[..|answers| - 1], b) + (if answers[|answers| - 1] == b then 1 else 0)
  }

  /** The number of correct answers at the end of the run. */
  function TrailingCorrect(answers: seq<bool>): nat
  {
    if answers == [] || !answers[|answers| - 1] then 0
    else TrailingCorrect(answers[..|answers| - 1]) + 1
  }

  /** `correct` and `incorrect` count the answers of each kind and `streak`
      is the length of the final run of correct answers. */
  lemma {:induction false} ReplayCounts(total: nat, answers: seq<bool>)
    ensures Replay(total, answers).correct == CountOf(answers, true)
    ensures Replay(total, answers).incorrect == CountOf(answers, false)
    ensures Replay(total, answers).streak == TrailingCorrect(answers)
    ensures Replay(total, answers).total == total
  {
    if answers != [] {
      ReplayCounts(total, answers[..|answers| - 1]);
    }
  }

  /** The streak never exceeds the correct answers it is made of. */
  lemma {:induction false} StreakWithinCorrect(answers: seq<bool>)
    ensures TrailingCorrect(answers) <= CountOf(answers, true)
  {
    if answers != [] {
      StreakWithinCorrect(answers[..|answers| - 1]);
    }
  }

  /** The percentage shown when the session is over, rounded half up. */
  function CompletionAccuracy(s: SessionStats): (r: int)
    requires s.correct + s.incorrect > 0
    ensures 0 <= r <= 100
    ensures s.incorrect == 0 ==> r == 100
    ensures s.correct == 0 ==> r == 0
  {
    var whole := s.correct + s.incorrect;
    var r := RoundDiv(100 * s.correct, whole);
    assert 0 <= r <= 100 && (s.incorrect == 0 ==> r == 100) && (s.correct == 0 ==> r == 0) by {
      RoundDivWithin(100 * s.correct, whole, 0, 100);
      if s.incorrect == 0 {
        RoundDivWithin(100 * s.correct, whole, 100, 100);
      }
      if s.correct == 0 {
        RoundDivWithin(100 * s.correct, whole, 0, 0);
      }
    }
    r
  }

  /** The page's session state. */
  class FlashcardSession {
    var deck: seq<string>
    var currentCard: int
    var isFlipped: bool
    var stats: SessionStats

    /** The answers so far match the card position: `currentCard` cards have
        been answered, or the whole deck once the session is over. */
    predicate Valid()
      reads this
    {
      && stats.streak <= stats.correct
      && (currentCard == SessionOver || 0 <= currentCard)
      && (currentCard >= 0 ==> stats.correct + stats.incorrect == currentCard
                               && (currentCard < |deck| || currentCard == 0))
      && (currentCard == SessionOver ==> |deck| > 0 && stats.correct + stats.incorrect == |deck|)
    }

    /** The page before the deck has loaded. */
    constructor ()
      ensures Valid()
      ensures deck == [] && currentCard == 0 && !isFlipped && stats == SessionStats(0, 0, 0, 0)
    {
      deck := [];
      currentCard := 0;
      isFlipped := false;
      stats := SessionStats(0, 0, 0, 0);
    }

    /** `loadFlashcards`, given what the request returned: a new deck sets
        the deck and `total`; a failed request changes nothing. */
    method Load(result: Option<seq<string>>)
      requires Valid() && currentCard == 0
      modifies this`deck, this`stats
      ensures Valid()
      ensures result.Some? ==> deck == result.value && stats == old(stats).(total := |result.value|)
      ensures result.None? ==> deck == old(deck) && stats == old(stats)
    {
      if result.Some? {
        deck := result.value;
        stats := stats.(total := |result.value|);
      }
    }

    /** `handleCardFlip`. */
    method CardFlip()
      modifies this`isFlipped
      ensures isFlipped == !old(isFlipped)
    {
      isFlipped := !isFlipped;
    }

    /** `handleAnswer`: reports the answer for the current word, counts it,
        and moves to the next card unflipped, or ends the session after the
        last card. */
    method HandleAnswer(isCorrect: bool) returns (reported: (string, bool))
      requires Valid() && 0 <= currentCard < |deck|
      modifies this`stats, this`currentCard, this`isFlipped
      ensures Valid()
      ensures reported == (deck[old(currentCard)], isCorrect)
      ensures stats == AfterAnswer(old(stats), isCorrect)
      ensures old(currentCard) < |deck| - 1 ==> currentCard == old(currentCard) + 1 && !isFlipped
      ensures old(currentCard) == |deck| - 1 ==> currentCard == SessionOver && isFlipped == old(isFlipped)
    {
      reported := (deck[currentCard], isCorrect);
      stats := AfterAnswer(stats, isCorrect);
      if currentCard < |deck| - 1 {
        currentCard := currentCard + 1;
        isFlipped := false;
      } else {
        currentCard := SessionOver;
      }
    }

    /** The "Skip Card" button: an incorrect answer. */
    method Skip() returns (reported: (string, bool))
      requires Valid() && 0 <= currentCard < |deck|
      modifies this`stats, this`currentCard, this`isFlipped
      ensures Valid()
      ensures reported == (deck[old(currentCard)], false)
      ensures stats == AfterAnswer(old(stats), false)
      ensures old(currentCard) < |deck| - 1 ==> currentCard == old(currentCard) + 1 && !isFlipped
      ensures old(currentCard) == |deck| - 1 ==> currentCard == SessionOver && isFlipped == old(isFlipped)
    {
      reported := HandleAnswer(false);
    }

    /** `handleRestart`: the same deck from the first card with cleared
        counters. */
    method Restart()
      modifies this`stats, this`currentCard, this`isFlipped
      ensures Valid()
      ensures currentCard == 0 && !isFlipped && stats == SessionStats(|deck|, 0, 0, 0)
    {
      currentCard := 0;
      isFlipped := false;
      stats := SessionStats(|deck|, 0, 0, 0);
    }

    /** `handleNewSession`, once the reload it starts has finished: cleared
        counters from the first card; `total` is the new deck's size, or 0
        when the reload failed and the old deck stays. */
    method NewSession(result: Option<seq<string>>)
      modifies this`deck, this`stats, this`currentCard, this`isFlipped
      ensures Valid()
      ensures currentCard == 0 && !isFlipped
      ensures result.Some? ==> deck == result.value && stats == SessionStats(|result.value|, 0, 0, 0)
      ensures result.None? ==> deck == old(deck) && stats == SessionStats(0, 0, 0, 0)
    {
      currentCard := 0;
      isFlipped := false;
      stats := SessionStats(0, 0, 0, 0);
      Load(result);
    }

    /** The accuracy on the completion screen. */
    function Accuracy(): (r: int)
      reads this
      requires Valid() && currentCard == SessionOver
      ensures 0 <= r <= 100
    {
      CompletionAccuracy(stats)
    }
  }

  /** Answering every card of a fresh session ends it with one answer per
      card. */
  lemma SessionOverAfterWholeDeck(deckSize: nat, answers: seq<bool>)
    requires deckSize > 0 && |answers| == deckSize
    ensures Replay(deckSize, answers).correct + Replay(deckSize, answers).incorrect == deckSize
  {
    ReplayCounts(deckSize, answers);
    CountsSplit(answers);
  }

  lemma {:induction false} CountsSplit(answers: seq<bool>)
    ensures CountOf(answers, true) + CountOf(answers, false) == |answers|
  {
    if answers != [] {
      CountsSplit(answers[..|answers| - 1]);
    }
  }
}
