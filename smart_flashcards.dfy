/** The flashcard study screen: starting a session from the server's due
    cards, the cursor over those cards, the rating buttons and the guard on
    the deck-creation form.

    Requests (`reviewMutation.mutate`, `generateMutation.mutate`) are
    appended to outboxes; their success callbacks are methods of their
    own. */
module SmartFlashcards {
  import opened Common
  import opened FlashcardSchema
  import opened FlashcardReview

  datatype Tab = DecksTab | StudyTab

  /** The deck-creation form. */
  datatype DeckForm = DeckForm(title: string, subject: string, content: string)

  const EmptyForm := DeckForm("", "", "")

  /** What `reviewMutation.mutate` is sent. */
  datatype ReviewRequest = ReviewRequest(flashcardId: ObjectId, confidenceLevel: int)

  /** The levels of the four rating buttons: Again, Hard, Good, Easy. */
  const RatingButtons: seq<int> := [1, 2, 3, 4]

  /** Every button sends a level the schema accepts, and the buttons are in
      increasing order of the interval the fallback schedule gives them. */
  lemma RatingButtonsAreValid()
    ensures forall k :: 0 <= k < |RatingButtons| ==> 1 <= RatingButtons[k] <= 4
    ensures forall k :: 0 <= k < |RatingButtons| ==> ConfidenceInRange(RatingButtons[k])
    ensures forall j, k :: 0 <= j < k < |RatingButtons| ==>
              FallbackMs(RatingButtons[j]) < FallbackMs(RatingButtons[k])
  {
    forall j, k | 0 <= j < k < |RatingButtons|
      ensures FallbackMs(RatingButtons[j]) < FallbackMs(RatingButtons[k])
    {
      FallbackIncreasing(RatingButtons[j], RatingButtons[k]);
    }
  }

  /** `handleNextCard` on the cursor alone: the next card, or the end of
      the session. */
  function Advance(cursor: nat, count: nat): (r: Option<nat>)
    ensures r.Some? <==> cursor + 1 < count
    ensures r.Some? ==> r.value == cursor + 1
  {
    if cursor < count - 1 then Some(cursor + 1) else None
  }

  /** The cursor after `k` ratings, starting a session of `count` cards. */
  function CursorAfter(count: nat, k: nat): (r: Option<nat>)
    ensures r.Some? ==> r.value < count && r.value <= k
  {
    if k == 0 then (if count > 0 then Some(0) else None)
    else
      match CursorAfter(count, k - 1)
      case None => None
      case Some(c) => Advance(c, count)
  }

  /** A session shows every due card exactly once, in the order the server
      sent them: after `k` ratings the `k`-th card is shown, and the session
      ends with the last rating. */
  lemma {:induction false} SessionVisitsCardsInOrder(count: nat, k: nat)
    requires 0 < count
    ensures k < count ==> CursorAfter(count, k) == Some(k)
    ensures k >= count ==> CursorAfter(count, k).None?
  {
    if k > 0 {
      SessionVisitsCardsInOrder(count, k - 1);
    }
  }

  class StudyScreen {
    var activeTab: Tab
    var showCreateForm: bool
    var currentDeck: Option<Deck>
    var currentCard: int
    var showAnswer: bool
    var studyCards: seq<Flashcard>
    var formData: DeckForm
    var reviewRequests: seq<ReviewRequest>
    var generateRequests: seq<DeckForm>

    /** While studying, the cursor is on one of the session's cards. */
    ghost predicate Valid()
      reads this
    {
      0 <= currentCard && (activeTab == StudyTab ==> currentCard < |studyCards|)
    }

    constructor ()
      ensures Valid()
      ensures activeTab == DecksTab && !showCreateForm && currentDeck.None? && currentCard == 0
      ensures !showAnswer && studyCards == [] && formData == EmptyForm
      ensures reviewRequests == [] && generateRequests == []
    {
      activeTab, showCreateForm, currentDeck, currentCard := DecksTab, false, None, 0;
      showAnswer, studyCards, formData := false, [], EmptyForm;
      reviewRequests, generateRequests := [], [];
    }

    /** `handleStartStudy` with the session the server answered (`None` when
        the request failed): a failed request or one without due cards
        changes nothing; otherwise the cards are studied in the order
        received, from the first, with the answer hidden. */
    method HandleStartStudy(response: Option<StudySession>)
      requires Valid()
      modifies this
      ensures Valid()
      ensures response.None? || response.value.flashcards == [] ==> unchanged(this)
      ensures response.Some? && response.value.flashcards != [] ==>
                currentDeck == response.value.deck && studyCards == response.value.flashcards
                && currentCard == 0 && !showAnswer && activeTab == StudyTab
                && unchanged(this`showCreateForm, this`formData, this`reviewRequests, this`generateRequests)
    {
      if response.None? || |response.value.flashcards| == 0 {
        return;
      }
      currentDeck := response.value.deck;
      studyCards := response.value.flashcards;
      currentCard := 0;
      showAnswer := false;
      activeTab := StudyTab;
    }

    method RevealAnswer()
      modifies this`showAnswer
      ensures showAnswer
    {
      showAnswer := true;
    }

    /** `handleNextCard`: the next card with its answer hidden, or, after
        the last card, back to the decks with the session cleared. */
    method HandleNextCard()
      requires Valid()
      modifies this
      ensures Valid()
      ensures old(currentCard) < |old(studyCards)| - 1 ==>
                currentCard == old(currentCard) + 1 && !showAnswer && studyCards == old(studyCards)
                && unchanged(this`activeTab, this`currentDeck)
      ensures old(currentCard) >= |old(studyCards)| - 1 ==>
                activeTab == DecksTab && currentDeck.None? && studyCards == [] && currentCard == 0
                && showAnswer == old(showAnswer)
      ensures old(activeTab) == StudyTab ==>
                (Advance(old(currentCard), |old(studyCards)|).Some? <==> activeTab == StudyTab)
      ensures unchanged(this`showCreateForm, this`formData, this`reviewRequests, this`generateRequests)
    {
      if currentCard < |studyCards| - 1 {
        currentCard := currentCard + 1;
        showAnswer := false;
      } else {
        activeTab := DecksTab;
        currentDeck := None;
        studyCards := [];
        currentCard := 0;
      }
    }

    /** A rating button sends its level with the id of the card shown. */
    method HandleConfidenceRating(k: nat)
      requires Valid() && activeTab == StudyTab && k < |RatingButtons|
      modifies this`reviewRequests
      ensures reviewRequests == old(reviewRequests) + [ReviewRequest(studyCards[currentCard].id, RatingButtons[k])]
      ensures 1 <= reviewRequests[|reviewRequests| - 1].confidenceLevel <= 4
    {
      reviewRequests := reviewRequests + [ReviewRequest(studyCards[currentCard].id, RatingButtons[k])];
    }

    /** A successful review moves on to the next card. */
    method OnReviewSucceeded()
      requires Valid()
      modifies this
      ensures Valid()
      ensures old(currentCard) < |old(studyCards)| - 1 ==> currentCard == old(currentCard) + 1 && !showAnswer
      ensures old(currentCard) >= |old(studyCards)| - 1 ==> activeTab == DecksTab && studyCards == []
      ensures unchanged(this`showCreateForm, this`formData, this`reviewRequests, this`generateRequests)
    {
      HandleNextCard();
    }

    method EditForm(form: DeckForm)
      modifies this`formData
      ensures formData == form
    {
      formData := form;
    }

    /** `handleSubmit`: the form is sent only with a title, a subject and
        content. */
    method HandleSubmit()
      modifies this`generateRequests
      ensures formData.title != "" && formData.subject != "" && formData.content != ""
              <==> generateRequests == old(generateRequests) + [formData]
      ensures generateRequests == old(generateRequests) || generateRequests == old(generateRequests) + [formData]
    {
      if formData.title == "" || formData.subject == "" || formData.content == "" {
        return;
      }
      generateRequests := generateRequests + [formData];
    }

    /** The deck was generated: the form is closed and emptied. */
    method OnDeckGenerated()
      modifies this`showCreateForm, this`formData
      ensures !showCreateForm && formData == EmptyForm
    {
      showCreateForm := false;
      formData := EmptyForm;
    }
  }
}
