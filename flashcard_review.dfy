/** The spaced-repetition part of the student controller: grading one card
    and scheduling its next review (`updateFlashcardReview`), choosing the
    cards due in a study session (`getStudySession`) and the owner-checked
    cascade delete of a deck (`deleteFlashcardDeck`).

    The interval the generative model would suggest is an input: `Some(h)`
    is a number of hours it returned, `None` is every way that branch fails
    (the SDK call, `response.text()`, the JSON parse), after which the fixed
    fallback table applies. */
module FlashcardReview {
  import opened Common
  import opened FlashcardSchema
  import P = StudentProfileSchema

  // ----- the schedule -----

  /** The fallback interval for a rating: 1 gives a quarter of an hour,
      2 a day, 3 three days and every other value a week. */
  function FallbackMs(rating: int): (ms: int)
    ensures 0 < ms <= 168 * MsPerHour
    ensures ms == 168 * MsPerHour <==> rating != 1 && rating != 2 && rating != 3
  {
    if rating == 1 then MsPerHour / 4
    else if rating == 2 then 24 * MsPerHour
    else if rating == 3 then 72 * MsPerHour
    else 168 * MsPerHour
  }

  /** The table in milliseconds. */
  lemma FallbackTable()
    ensures FallbackMs(1) == 900_000
    ensures FallbackMs(2) == 86_400_000
    ensures FallbackMs(3) == 259_200_000
    ensures forall r :: r != 1 && r != 2 && r != 3 ==> FallbackMs(r) == 604_800_000
  {
  }

  /** Over the ratings the client sends, a higher rating waits longer. */
  lemma FallbackIncreasing(a: int, b: int)
    requires 1 <= a < b <= 4
    ensures FallbackMs(a) < FallbackMs(b)
  {
  }

  /** The interval applied: the model's hours when it answered, otherwise
      the fallback. Nothing bounds the model's value. */
  function IntervalMs(rating: int, advisoryHours: Option<int>): (ms: int)
    ensures advisoryHours.None? ==> ms == FallbackMs(rating)
    ensures advisoryHours.Some? ==> ms == advisoryHours.value * MsPerHour
  {
    match advisoryHours
    case Some(h) => h * MsPerHour
    case None => FallbackMs(rating)
  }

  /** The card after a review at time `now`: the rating becomes its
      confidence level, `now` its last review and `now` plus the interval its
      next review; its id, owner, deck, question and answer stay. It stays
      valid for the schema exactly when the rating is in [1, 5]. */
  function Reviewed(card: Flashcard, rating: int, advisoryHours: Option<int>, now: int): (c: Flashcard)
    ensures c.confidenceLevel == rating && c.lastReviewed == now
    ensures c.nextReview - c.lastReviewed == IntervalMs(rating, advisoryHours)
    ensures c.(confidenceLevel := card.confidenceLevel, lastReviewed := card.lastReviewed,
               nextReview := card.nextReview) == card
    ensures SchemaValid(card) ==> (SchemaValid(c) <==> ConfidenceInRange(rating))
  {
    card.(confidenceLevel := rating, lastReviewed := now,
          nextReview := now + IntervalMs(rating, advisoryHours))
  }

  /** With no bound on the model's value, a negative number of hours
      schedules the next review before the review itself. */
  lemma NegativeAdvisoryIsInThePast(card: Flashcard, rating: int, h: int, now: int)
    requires h < 0
    ensures Reviewed(card, rating, Some(h), now).nextReview < now
  {
  }

  /** A card reviewed with the fallback schedule is not due again until its
      interval has passed, and is due from then on. */
  lemma FallbackReviewDueAt(card: Flashcard, rating: int, now: int, t: int)
    ensures IsDue(Reviewed(card, rating, None, now), t) <==> now + FallbackMs(rating) <= t
  {
  }

  // ----- the profile context -----

  datatype ScheduleContext = ScheduleContext(studyHoursPerWeek: int, difficulty: P.Difficulty)

  /** `subjects.find((s) => s.name === name)`. */
  function FirstNamed(subjects: seq<P.SubjectEntry>, name: string): (r: Option<P.SubjectEntry>)
    ensures r.Some? ==> r.value in subjects && r.value.name == name
    ensures r.None? <==> forall k :: 0 <= k < |subjects| ==> subjects[k].name != name
    ensures r.Some? ==> exists k :: 0 <= k < |subjects| && subjects[k] == r.value
                                    && forall j :: 0 <= j < k ==> subjects[j].name != name
  {
    if subjects == [] then None
    else if subjects[0].name == name then Some(subjects[0])
    else
      var rest := FirstNamed(subjects[1..], name);
      if rest.Some? then
        var k :| 0 <= k < |subjects[1..]| && subjects[1..][k] == rest.value
                 && forall j :: 0 <= j < k ==> subjects[1..][j].name != name;
        assert subjects[k + 1] == rest.value;
        assert forall j :: 0 <= j < k + 1 ==> subjects[j].name != name by {
          forall j | 0 <= j < k + 1 ensures subjects[j].name != name {
            if j > 0 { assert subjects[j] == subjects[1..][j - 1]; }
          }
        }
        rest
      else rest
  }

  /** The study hours and difficulty put into the scheduling prompt: those
      of the profile's subject named like the card's subject, with 4 hours
      (also when the entry says 0) and medium when there is none. */
  function ContextFor(subject: Option<string>, subjects: seq<P.SubjectEntry>): (r: ScheduleContext)
    ensures subject.None? || subject.value == "" ==> r == ScheduleContext(4, P.Medium)
    ensures r.studyHoursPerWeek != 0
  {
    if subject.Some? && subject.value != "" then
      match FirstNamed(subjects, subject.value)
      case Some(e) => ScheduleContext(if e.studyHoursPerWeek != 0 then e.studyHoursPerWeek else 4, e.difficulty)
      case None => ScheduleContext(4, P.Medium)
    else ScheduleContext(4, P.Medium)
  }

  /** Since a card has no subject, every review sees 4 hours and medium,
      whatever the profile says. */
  lemma ReviewContextIsDefault(card: Flashcard, profile: P.StudentProfile)
    ensures ContextFor(SubjectOf(card), profile.subjects) == ScheduleContext(4, P.Medium)
  {
  }

  // ----- updateFlashcardReview -----

  datatype ReviewOutcome =
    | CardNotFound          // 404: no such card, or another user's card
    | ProfileMissing        // the handler dereferences the missing profile and fails
    | ValidationFailed      // `save` rejects a confidence level outside [1, 5]
    | Rescheduled(card: Flashcard)

  /** Grades card `flashcardId` for `requester` with `rating` at time `now`.
      Only the requester's own card is touched, and only these three fields
      of it; on every other outcome nothing changes. */
  method UpdateFlashcardReview(store: FlashcardCollection, profiles: P.ProfileCollection,
                               requester: ObjectId, flashcardId: ObjectId, rating: int,
                               advisoryHours: Option<int>, now: int)
      returns (outcome: ReviewOutcome)
    requires store.Valid() && profiles.Valid()
    modifies store
    ensures store.Valid()
    ensures outcome.CardNotFound? <==>
      FindCard(old(store.cards), flashcardId).None?
      || old(store.cards)[FindCard(old(store.cards), flashcardId).value].userId != requester
    ensures outcome.ProfileMissing? <==>
      !outcome.CardNotFound? && requester !in profiles.profiles
    ensures outcome.ValidationFailed? <==>
      !outcome.CardNotFound? && requester in profiles.profiles && !ConfidenceInRange(rating)
    ensures outcome.Rescheduled? ==>
      var i := FindCard(old(store.cards), flashcardId).value;
      outcome.card == Reviewed(old(store.cards)[i], rating, advisoryHours, now)
      && store.cards == old(store.cards)[i := outcome.card]
    ensures !outcome.Rescheduled? ==> store.cards == old(store.cards)
  {
    var found := FindCard(store.cards, flashcardId);
    if found.None? || store.cards[found.value].userId != requester {
      return CardNotFound;
    }
    if requester !in profiles.profiles {
      return ProfileMissing;
    }
    if !ConfidenceInRange(rating) {
      return ValidationFailed;
    }
    var i := found.value;
    var card := Reviewed(store.cards[i], rating, advisoryHours, now);
    store.cards := store.cards[i := card];
    outcome := Rescheduled(card);
  }

  // ----- getStudySession -----

  /** The cards of `userId` in deck `deckId` that are due at `t`, in stored order. */
  function DueCards(cards: seq<Flashcard>, userId: ObjectId, deckId: ObjectId, t: int): (r: seq<Flashcard>)
    ensures forall c :: c in r <==> c in cards && c.userId == userId && c.deckId == deckId && IsDue(c, t)
    ensures forall c :: multiset(r)[c] ==
              if c.userId == userId && c.deckId == deckId && IsDue(c, t) then multiset(cards)[c] else 0
    ensures |r| <= |cards|
  {
    if cards == [] then []
    else
      var c := cards[|cards| - 1];
      assert cards == cards[..|cards| - 1] + [c];
      DueCards(cards[..|cards| - 1], userId, deckId, t)
        + (if c.userId == userId && c.deckId == deckId && IsDue(c, t) then [c] else [])
  }

  /** The order `sort({ confidenceLevel: 1, nextReview: 1 })`. */
  predicate KeyLeq(a: Flashcard, b: Flashcard) {
    a.confidenceLevel < b.confidenceLevel
    || (a.confidenceLevel == b.confidenceLevel && a.nextReview <= b.nextReview)
  }

  predicate SortedByKey(s: seq<Flashcard>) {
    forall i, j :: 0 <= i < j < |s| ==> KeyLeq(s[i], s[j])
  }

  function InsertByKey(x: Flashcard, s: seq<Flashcard>): (r: seq<Flashcard>)
    requires SortedByKey(s)
    ensures SortedByKey(r)
    ensures multiset(r) == multiset(s) + multiset{x}
    ensures |r| == |s| + 1
  {
    if s == [] then [x]
    else if KeyLeq(x, s[0]) then [x] + s
    else
      var rest := InsertByKey(x, s[1..]);
      assert s == [s[0]] + s[1..];
      LowerBoundKept(s[0], x, s[1..], rest);
      [s[0]] + rest
  }

  /** A lower bound of `x` and of every card of `s` bounds every card of a
      sequence holding exactly those cards. */
  lemma LowerBoundKept(lo: Flashcard, x: Flashcard, s: seq<Flashcard>, r: seq<Flashcard>)
    requires KeyLeq(lo, x) && forall k :: 0 <= k < |s| ==> KeyLeq(lo, s[k])
    requires multiset(r) == multiset(s) + multiset{x}
    ensures forall k :: 0 <= k < |r| ==> KeyLeq(lo, r[k])
  {
    forall k | 0 <= k < |r|
      ensures KeyLeq(lo, r[k])
    {
      assert r[k] in multiset(r);
      if r[k] != x {
        assert r[k] in multiset(s);
      }
    }
  }

  function SortByKey(s: seq<Flashcard>): (r: seq<Flashcard>)
    ensures SortedByKey(r)
    ensures multiset(r) == multiset(s)
  {
    if s == [] then []
    else
      assert s == s[..|s| - 1] + [s[|s| - 1]];
      InsertByKey(s[|s| - 1], SortByKey(s[..|s| - 1]))
  }

  /** Two equal entries at different positions count twice. */
  lemma RepeatedEntryCountsTwice(s: seq<Flashcard>, i: nat, j: nat)
    requires i < j < |s|
    ensures s[i] == s[j] ==> multiset(s)[s[j]] >= 2
  {
    assert s == s[..j] + [s[j]] + s[j + 1..];
    assert s[i] in s[..j];
  }

  /** With distinct ids no card is stored twice. */
  lemma {:induction false} UniqueIdsCountOnce(s: seq<Flashcard>, x: Flashcard)
    requires UniqueIds(s)
    ensures multiset(s)[x] <= 1
  {
    if s != [] {
      var p := s[..|s| - 1];
      assert s == p + [s[|s| - 1]];
      UniqueIdsCountOnce(p, x);
      if s[|s| - 1] == x {
        forall k | 0 <= k < |p|
          ensures p[k] != x
        {
          assert s[k].id != s[|s| - 1].id;
        }
      }
    }
  }

  /** Every selection of stored cards, in any order, keeps the ids
      distinct. */
  lemma SubMultisetKeepsUniqueIds(a: seq<Flashcard>, b: seq<Flashcard>)
    requires UniqueIds(a) && multiset(b) <= multiset(a)
    ensures UniqueIds(b)
  {
    forall i, j | 0 <= i < j < |b|
      ensures b[i].id != b[j].id
    {
      RepeatedEntryCountsTwice(b, i, j);
      UniqueIdsCountOnce(a, b[j]);
      assert b[i] != b[j];
      assert b[i] in multiset(b) && b[j] in multiset(b);
      var k :| 0 <= k < |a| && a[k] == b[i];
      var m :| 0 <= m < |a| && a[m] == b[j];
      if k < m {
        assert a[k].id != a[m].id;
      } else {
        assert a[m].id != a[k].id;
      }
    }
  }

  /** The due cards of a store with distinct ids have distinct ids. */
  lemma DueCardsKeepsUniqueIds(cards: seq<Flashcard>, userId: ObjectId, deckId: ObjectId, t: int)
    requires UniqueIds(cards)
    ensures UniqueIds(DueCards(cards, userId, deckId, t))
  {
    var r := DueCards(cards, userId, deckId, t);
    assert multiset(r) <= multiset(cards);
    SubMultisetKeepsUniqueIds(cards, r);
  }

  /** A reordering `b` of a selection `a` of stored cards has the same
      members as `a`, and distinct ids when the store has them. */
  lemma ReorderedSelection(cards: seq<Flashcard>, a: seq<Flashcard>, b: seq<Flashcard>)
    requires multiset(a) <= multiset(cards) && multiset(b) == multiset(a)
    ensures forall c :: c in b <==> c in a
    ensures UniqueIds(cards) ==> UniqueIds(b)
  {
    assert forall c :: c in b <==> c in multiset(b);
    assert forall c :: c in a <==> c in multiset(a);
    if UniqueIds(cards) {
      SubMultisetKeepsUniqueIds(cards, b);
    }
  }

  datatype StudySession = StudySession(deck: Option<Deck>, flashcards: seq<Flashcard>, totalDue: nat)

  /** The study session of `requester` for deck `deckId` at time `now`:
      exactly their cards of that deck that are due, each once, ordered by
      confidence level and then by next review, and their number. The deck
      itself is looked up by id alone, whoever owns it, and may be absent. */
  function GetStudySession(cards: seq<Flashcard>, decks: map<ObjectId, Deck>,
                           requester: ObjectId, deckId: ObjectId, now: int): (r: StudySession)
    ensures forall c :: c in r.flashcards <==>
      c in cards && c.userId == requester && c.deckId == deckId && c.nextReview <= now
    ensures multiset(r.flashcards) == multiset(DueCards(cards, requester, deckId, now))
    ensures forall c :: multiset(r.flashcards)[c] ==
              if c.userId == requester && c.deckId == deckId && c.nextReview <= now then multiset(cards)[c] else 0
    ensures UniqueIds(cards) ==> UniqueIds(r.flashcards)
    ensures SortedByKey(r.flashcards)
    ensures r.totalDue == |r.flashcards|
    ensures r.deck.Some? <==> deckId in decks
    ensures r.deck.Some? ==> r.deck.value == decks[deckId]
  {
    var d := DueCards(cards, requester, deckId, now);
    var due := SortByKey(d);
    ReorderedSelection(cards, d, due);
    StudySession(if deckId in decks then Some(decks[deckId]) else None, due, |due|)
  }

  /** After a fallback review at `now`, the card stays out of its owner's
      study sessions until its interval has passed. */
  lemma {:induction false} ReviewedCardLeavesSession(cards: seq<Flashcard>, decks: map<ObjectId, Deck>,
                                                   i: nat, rating: int, now: int, t: int,
                                                   requester: ObjectId, deckId: ObjectId)
    requires UniqueIds(cards) && i < |cards|
    requires t < now + FallbackMs(rating)
    ensures forall c :: c in GetStudySession(cards[i := Reviewed(cards[i], rating, None, now)],
                                             decks, requester, deckId, t).flashcards
                        ==> c.id != cards[i].id
  {
    ReviewedCardNotDue(cards, i, rating, now, t);
  }

  /** After a fallback review at `now`, no stored card with the reviewed
      card's id is due before the interval has passed. */
  lemma ReviewedCardNotDue(cards: seq<Flashcard>, i: nat, rating: int, now: int, t: int)
    requires UniqueIds(cards) && i < |cards|
    requires t < now + FallbackMs(rating)
    ensures forall c :: c in cards[i := Reviewed(cards[i], rating, None, now)] && IsDue(c, t)
                        ==> c.id != cards[i].id
  {
    var after := cards[i := Reviewed(cards[i], rating, None, now)];
    assert !IsDue(after[i], t);
    forall c | c in after && IsDue(c, t)
      ensures c.id != cards[i].id
    {
      var k :| 0 <= k < |after| && after[k] == c;
      if k != i {
        assert c == cards[k];
      }
    }
  }

  // ----- deleteFlashcardDeck -----

  /** `Flashcard.deleteMany({ deckId })`: the cards of every owner in that
      deck removed, the others kept in order. */
  function WithoutDeck(cards: seq<Flashcard>, deckId: ObjectId): (r: seq<Flashcard>)
    ensures forall c :: c in r <==> c in cards && c.deckId != deckId
    ensures forall c :: multiset(r)[c] == if c.deckId != deckId then multiset(cards)[c] else 0
  {
    if cards == [] then []
    else
      var c := cards[|cards| - 1];
      assert cards == cards[..|cards| - 1] + [c];
      WithoutDeck(cards[..|cards| - 1], deckId) + (if c.deckId != deckId then [c] else [])
  }

  /** Removing cards keeps the ids of the remaining ones distinct. */
  lemma {:induction false} WithoutDeckKeepsUniqueIds(cards: seq<Flashcard>, deckId: ObjectId)
    requires UniqueIds(cards)
    ensures UniqueIds(WithoutDeck(cards, deckId))
  {
    if cards != [] {
      var prefix := cards[..|cards| - 1];
      var c := cards[|cards| - 1];
      var rest := WithoutDeck(prefix, deckId);
      WithoutDeckKeepsUniqueIds(prefix, deckId);
      forall k | 0 <= k < |rest|
        ensures rest[k].id != c.id
      {
        assert rest[k] in prefix;
      }
    }
  }

  /** Deletes deck `deckId` with its cards when `requester` owns it; answers
      whether it did (otherwise the handler answers 404 and changes nothing). */
  method DeleteFlashcardDeck(store: FlashcardCollection, decks: DeckCollection,
                             requester: ObjectId, deckId: ObjectId) returns (deleted: bool)
    requires store.Valid() && decks.Valid()
    modifies store, decks
    ensures store.Valid() && decks.Valid()
    ensures deleted <==> deckId in old(decks.decks) && old(decks.decks)[deckId].userId == requester
    ensures deleted ==> store.cards == WithoutDeck(old(store.cards), deckId)
                        && decks.decks == old(decks.decks) - {deckId}
    ensures !deleted ==> store.cards == old(store.cards) && decks.decks == old(decks.decks)
  {
    deleted := deckId in decks.decks && decks.decks[deckId].userId == requester;
    if deleted {
      WithoutDeckKeepsUniqueIds(store.cards, deckId);
      store.cards := WithoutDeck(store.cards, deckId);
      decks.decks := decks.decks - {deckId};
    }
  }

  /** Cards none of which is in deck `deckId` give no due card for it. */
  lemma {:induction false} NoDueCardsOutsideDeck(cards: seq<Flashcard>, userId: ObjectId,
                                                 deckId: ObjectId, t: int)
    requires forall k :: 0 <= k < |cards| ==> cards[k].deckId != deckId
    ensures DueCards(cards, userId, deckId, t) == []
  {
    if cards != [] {
      NoDueCardsOutsideDeck(cards[..|cards| - 1], userId, deckId, t);
    }
  }

  /** Without due cards the session is empty. */
  lemma EmptyDueEmptySession(cards: seq<Flashcard>, decks: map<ObjectId, Deck>,
                             requester: ObjectId, deckId: ObjectId, now: int)
    requires DueCards(cards, requester, deckId, now) == []
    ensures GetStudySession(cards, decks, requester, deckId, now).flashcards == []
  {
    var r := GetStudySession(cards, decks, requester, deckId, now);
    assert |r.flashcards| == |multiset(r.flashcards)| == 0;
  }

  /** Once a deck is deleted, a study session for it is empty and has no deck. */
  lemma DeletedDeckSessionIsEmpty(cards: seq<Flashcard>, decks: map<ObjectId, Deck>,
                                  requester: ObjectId, deckId: ObjectId, now: int)
    ensures GetStudySession(WithoutDeck(cards, deckId), decks - {deckId}, requester, deckId, now)
            == StudySession(None, [], 0)
  {
    var left := WithoutDeck(cards, deckId);
    forall k | 0 <= k < |left|
      ensures left[k].deckId != deckId
    {
      assert left[k] in left;
    }
    NoDueCardsOutsideDeck(left, requester, deckId, now);
    EmptyDueEmptySession(left, decks - {deckId}, requester, deckId, now);
  }
}
