/** The Flashcard and FlashcardDeck documents and their collections. A card
    carries its owner, its deck, question and answer, a confidence level that
    the schema bounds to [1, 5] and two timestamps that default to the moment
    the card is created. There is no `subject` field. */
module FlashcardSchema {
  import opened Common

  datatype Flashcard = Flashcard(
    id: ObjectId,
    userId: ObjectId,
    deckId: ObjectId,
    question: string,
    answer: string,
    confidenceLevel: int,
    lastReviewed: int,
    nextReview: int)

  const MinConfidence := 1
  const MaxConfidence := 5
  const DefaultConfidence := 1

  predicate ConfidenceInRange(level: int) {
    MinConfidence <= level <= MaxConfidence
  }

  /** What `save` demands: the four required fields present and non-empty,
      and the confidence level inside the `min`/`max` bounds. */
  predicate SchemaValid(c: Flashcard) {
    c.userId != "" && c.deckId != "" && c.question != "" && c.answer != ""
    && ConfidenceInRange(c.confidenceLevel)
  }

  /** Creating a card at time `now` with only the required fields given:
      refused when one of them is missing, otherwise confidence 1 and both
      timestamps `now`. */
  function NewFlashcard(id: ObjectId, userId: ObjectId, deckId: ObjectId,
                        question: string, answer: string, now: int): (r: Option<Flashcard>)
    ensures r.Some? <==> userId != "" && deckId != "" && question != "" && answer != ""
    ensures r.Some? ==> SchemaValid(r.value)
    ensures r.Some? ==> r.value.id == id && r.value.userId == userId && r.value.deckId == deckId
                        && r.value.question == question && r.value.answer == answer
    ensures r.Some? ==> r.value.confidenceLevel == DefaultConfidence
                        && r.value.lastReviewed == now && r.value.nextReview == now
  {
    var c := Flashcard(id, userId, deckId, question, answer, DefaultConfidence, now, now);
    if SchemaValid(c) then Some(c) else None
  }

  /** The card is due for review at time `t`: from its next review on, and
      once due it stays due. */
  predicate IsDue(c: Flashcard, t: int)
    ensures t == c.nextReview ==> IsDue(c, t)
  {
    c.nextReview <= t
  }

  /** A card due at some time is due at every later time. */
  lemma DueStaysDue(c: Flashcard, t: int, later: int)
    requires t <= later
    ensures IsDue(c, t) ==> IsDue(c, later)
  {
  }

  /** A new card is due at its creation time and at every later time. */
  lemma NewCardIsDue(id: ObjectId, userId: ObjectId, deckId: ObjectId,
                     question: string, answer: string, now: int, t: int)
    requires NewFlashcard(id, userId, deckId, question, answer, now).Some?
    requires now <= t
    ensures IsDue(NewFlashcard(id, userId, deckId, question, answer, now).value, t)
  {
  }

  /** The card's subject, as the controller reads it: the schema declares no
      such field, so it is always absent. */
  function SubjectOf(c: Flashcard): Option<string> {
    None
  }

  /** `Flashcard.findById(id)` over the collection in stored order. */
  function FindCard(cards: seq<Flashcard>, id: ObjectId): (r: Option<nat>)
    ensures r.Some? ==> r.value < |cards| && cards[r.value].id == id
    ensures r.None? <==> forall k :: 0 <= k < |cards| ==> cards[k].id != id
  {
    if cards == [] then None
    else if cards[|cards| - 1].id == id then Some(|cards| - 1)
    else FindCard(cards[..|cards| - 1], id)
  }

  predicate UniqueIds(cards: seq<Flashcard>) {
    forall i, j :: 0 <= i < j < |cards| ==> cards[i].id != cards[j].id
  }

  /** The Flashcard collection, in insertion order (the order the store
      returns documents that a sort leaves tied). */
  class FlashcardCollection {
    var cards: seq<Flashcard>

    ghost predicate Valid()
      reads this
    {
      UniqueIds(cards) && forall i :: 0 <= i < |cards| ==> SchemaValid(cards[i])
    }

    constructor ()
      ensures Valid() && cards == []
    {
      cards := [];
    }
  }

  datatype Deck = Deck(id: ObjectId, userId: ObjectId, title: string, subject: string,
                       flashcards: seq<ObjectId>)

  /** The FlashcardDeck collection, keyed by `_id`. */
  class DeckCollection {
    var decks: map<ObjectId, Deck>

    ghost predicate Valid()
      reads this
    {
      forall d :: d in decks ==> decks[d].id == d
    }

    constructor ()
      ensures Valid() && decks == map[]
    {
      decks := map[];
    }

    /** `FlashcardDeck.findById(id)`. */
    function FindById(id: ObjectId): (r: Option<Deck>)
      reads this
      requires Valid()
      ensures r.Some? <==> id in decks
      ensures r.Some? ==> r.value.id == id
    {
      if id in decks then Some(decks[id]) else None
    }
  }
}
