# Lumina learning platform — a verified model of its core logic

Lumina is a learning-management system. Its Express server keeps users,
student profiles, posts, categories and flashcards in MongoDB. Its React
client offers students a spaced-repetition flashcard trainer, generated
quizzes, a daily planner and an AI chat assistant, and offers teachers and
admins a blog-style post feed. This project models the parts of both that
carry real logic:

- **Spaced repetition** (`FlashcardSchema`, `FlashcardReview`). The card
  schema; grading a card and scheduling its next review, with the model's
  advisory interval as an input and the fixed fallback table; the due-card
  session sorted by confidence and next review; the owner-checked cascade
  delete of a deck.
- **Quiz accounting** (`StudentProfileSchema`, `QuizSubmission`). The
  profile schema; the score, points, accuracy rate and streak a submission
  produces; the fallback quiz; the recommendation tiers; the chat window.
- **Users** (`UserModel`, `UserController`, `MongoArrays`). The follow graph
  as two mirrored lists; the verification and password-reset tokens
  (digest stored, raw value handed out, ten-minute expiry, cleared on use);
  registration; e-mail change; blocking. An e-mail missing from a request
  body is an absent `Option`; a `findOne` filter built from it leaves that
  key out, so every stored user matches it.
- **Posts** (`PostSchema`, `PostController`). The like/dislike toggles; the
  viewer set; creation with its back-links; the paged listing.
- **Client screens and stores**. These are `RegisterForm`, `SmartQuiz`,
  `SmartFlashcards`, `AuthRoute`, `Navigation`, `ThemeSlice`, `AuthSlice`,
  `ProfileSettings`, `DailyPlanner`, `CreatePostForm`, `PostsList` and
  `AccountSummary`. A screen whose handlers update React state is a class:
  its fields are the state and its methods are the handlers. A request a
  handler sends is appended to an outbox field, and the request's success
  callback is a method of its own. Pure deciders and lookups are functions.
- **Shared pieces** (`Common`, `Text`). Options, ids and the millisecond
  clock; JavaScript's `String(n)`, `padStart`, `trim`, `parseInt` and the
  `parseInt(x) || fallback` idiom.

A database collection is a class holding a `map` (or, for flashcards, a
`seq` in stored order). A controller handler is a method that modifies
exactly the collections the handler writes. Its `ensures` ties the new
contents to a pure function of the old ones, and the lemmas prove what the
handler promises about that function. The clock, the random bytes of a
token, generated ids and the output of the generative model are parameters.
SHA-256 and bcrypt are injective constructors (`Sha256Of`, `Bcrypt`).
Integers are unbounded. `Math.round((c / t) * 100)` is taken as `(200c + t) div 2t`,
the exact percentage rounded half up (see `QuizSubmission.RoundPercent` under
"## Left out" for where doubles differ), a
day is `t div 86 400 000`, and a quarter of an hour is 900 000 ms.

## Model

| member | source | states |
|---|---|---|
| Common.Day | server/controllers/users/student/studentController.js:477-480 | The day of a timestamp is the whole number of days before it: the day starts at or before the timestamp and the next day starts after it. |
| Common.DayBefore | server/controllers/users/student/studentController.js:477-480 | The day of "now minus 24 hours" is the day before today, which is how the streak finds "yesterday". |
| MongoArrays.Pull | server/controllers/users/userController.js:265-266 | `pull` removes every occurrence of the value, keeps every other value, and never lengthens the array. |
| MongoArrays.AddToSet | server/controllers/users/userController.js:227-241 | `$addToSet` leaves exactly the old members plus the value, growing by at most one. |
| MongoArrays.PullAbsent | server/controllers/users/userController.js:265-266 | Pulling an absent value changes nothing. |
| MongoArrays.PullAppended | server/controllers/users/userController.js:265-266 | Pulling a value from an array with that value appended is pulling it from the array. |
| MongoArrays.AddToSetIdempotent | server/controllers/users/userController.js:227-241 | Adding the same value twice is adding it once. |
| MongoArrays.PullUndoesAddToSet | server/controllers/users/userController.js:227-268 | Pulling a value that `$addToSet` newly appended restores the array exactly. |
| MongoArrays.PullKeepsNoDuplicates | server/controllers/users/userController.js:265-266 | `pull` never introduces a duplicate. |
| MongoArrays.AddToSetKeepsNoDuplicates | server/controllers/users/userController.js:227-241 | `$addToSet` never introduces a duplicate. |
| MongoArrays.IndexOf | server/controllers/users/student/studentController.js:449 | `indexOf` is -1 exactly when the value is absent; otherwise it is the first index holding the value. |
| MongoArrays.Distinct | server/controllers/users/student/studentController.js:447-449 | `filter((v, i, a) => a.indexOf(v) === i)` keeps exactly the values of the input, each once, in order of first occurrence. |
| Text.NatToString | client/src/components/user/student/SmartQuiz.jsx:206-208 | `String(n)` is a non-empty run of digits, of length one exactly for n < 10. |
| Text.NatToStringValue | client/src/components/user/student/SmartQuiz.jsx:206-208 | The digits of `String(n)` read back as n. |
| Text.Pad2 | client/src/components/user/student/SmartQuiz.jsx:208 | `padStart(2, "0")` of a number below 100 is two digits whose value is that number. |
| Text.Trim | client/src/components/user/student/StudentProfileSettings.jsx:89 | `trim()` is a slice of its input with only white space cut away before and after it, and the result neither starts nor ends with white space. |
| Text.TrimIsUnique | client/src/components/user/student/StudentProfileSettings.jsx:89 | Those two properties determine `trim()`: any slice with only white space around it and none at its ends is the trimmed string. |
| Text.TrimEmptyIff | client/src/components/user/student/StudentProfileSettings.jsx:89 | A string trims to "" exactly when every character of it is white space. |
| Text.TrimKeepsTrimmed | server/models/Post/Post.model.js:6-10 | A string without white space at either end is its own trim. |
| Text.TrimIdempotent | server/models/Post/Post.model.js:6-10 | Trimming twice is trimming once. |
| Text.JsLength | client/src/components/user/Register.jsx:38 | `password.length` counts UTF-16 code units: at least one and at most two per character, and exactly one per character when none lies outside the Basic Multilingual Plane. |
| Text.JsLengthAppend | client/src/components/user/Register.jsx:38 | The length of a concatenation is the sum of the lengths. |
| Text.ParseInt | client/src/components/user/student/StudentProfileSettings.jsx:357 | `parseInt` yields a number only when the text contains a digit. |
| Text.NumberOr | client/src/components/user/student/StudentProfileSettings.jsx:357 | `parseInt(x) \|\| fallback` is the parsed number, or the fallback; a NaN or 0 always gives the fallback. |
| Text.ParseIntOfNatToString | client/src/components/user/student/StudentProfileSettings.jsx:357 | `parseInt(String(n))` is n. |
| Text.NumberOrCases | client/src/components/user/student/StudentProfileSettings.jsx:357 | The text of a positive number is read back as that number; "" and "0" give the fallback. |
| StudentProfileSchema.ParseMood | server/models/User/studentProfile.model.js:72-76 | The mood validator accepts exactly the five names, each mapped to the mood it names. |
| StudentProfileSchema.ParseMoodName | server/models/User/studentProfile.model.js:72-76 | Every mood's stored name is accepted and gives back that mood. |
| StudentProfileSchema.ParseDifficulty | server/models/User/studentProfile.model.js:22-44 | The difficulty validator accepts exactly "easy", "medium" and "hard". |
| StudentProfileSchema.ParsePriority | server/models/User/studentProfile.model.js:22-44 | The priority validator accepts exactly "low", "medium" and "high". |
| StudentProfileSchema.NewProfile | server/models/User/studentProfile.model.js:5-119 | A new profile takes every default: Grade 11, English, energy 5, mood neutral, 90-minute sessions, 15-minute breaks, zero counters, no subjects and no history. It is valid exactly when it has a user id, and its quiz statistics are well formed. |
| StudentProfileSchema.ProfileCollection.constructor | server/models/User/studentProfile.model.js:3-10 | The collection starts empty. |
| StudentProfileSchema.ProfileCollection.FindByUser | server/models/User/studentProfile.model.js:5-10 | `findOne({ userId })` finds a profile exactly when the user has one, and that profile belongs to the user and is valid; while every stored profile's statistics are well formed, its history is well formed and its accuracy within 0 to 100. |
| StudentProfileSchema.ProfileCollection.Insert | server/models/User/studentProfile.model.js:5-10 | An insert succeeds exactly for a valid profile whose user has none yet, so there is at most one profile per user; otherwise nothing changes. Inserting a profile with well-formed statistics keeps every stored profile's statistics well formed. |
| FlashcardSchema.NewFlashcard | server/models/FlashCard/Flashcard.model.js:5-36 | A card is created exactly when owner, deck, question and answer are all present. It then has confidence 1 and both timestamps at the creation time. |
| FlashcardSchema.NewCardIsDue | server/models/FlashCard/Flashcard.model.js:33-36 | A new card is due at every time from its creation on. |
| FlashcardSchema.IsDue | server/controllers/users/student/studentController.js:749 | `nextReview <= now`: a card is due at its next-review time. |
| FlashcardSchema.DueStaysDue | server/controllers/users/student/studentController.js:749 | A card due at some time is due at every later time. |
| FlashcardSchema.FlashcardCollection.constructor | server/models/FlashCard/Flashcard.model.js:3-41 | The collection starts empty. |
| FlashcardSchema.DeckCollection.constructor | server/models/FlashCard/FlashcardDeck.model.js:3-28 | The collection starts empty. |
| FlashcardSchema.FindCard | server/controllers/users/student/studentController.js:770 | `findById` finds an index holding that id, or reports that no card has it. |
| FlashcardSchema.DeckCollection.FindById | server/controllers/users/student/studentController.js:752 | `FlashcardDeck.findById` finds the deck exactly when one has that id. |
| FlashcardReview.FallbackMs | server/controllers/users/student/studentController.js:855-862 | The fallback interval is positive and at most a week; it is a week exactly for a rating other than 1, 2 and 3. |
| FlashcardReview.FallbackTable | server/controllers/users/student/studentController.js:855-864 | Rating 1 waits 900 000 ms, 2 waits a day, 3 waits three days, and every other value waits a week. |
| FlashcardReview.FallbackIncreasing | server/controllers/users/student/studentController.js:855-862 | Over ratings 1 to 4, a higher rating waits strictly longer. |
| FlashcardReview.IntervalMs | server/controllers/users/student/studentController.js:834-864 | The interval is the model's hours when it answered, otherwise the fallback table. |
| FlashcardReview.Reviewed | server/controllers/users/student/studentController.js:834-869 | A review sets the confidence to the rating, the last review to now, and the next review to now plus the interval. No other field changes. A valid card stays valid exactly when the rating is within 1 to 5. |
| FlashcardReview.NegativeAdvisoryIsInThePast | server/controllers/users/student/studentController.js:834-836 | The model's value is not bounded: a negative number of hours schedules the next review in the past. |
| FlashcardReview.FallbackReviewDueAt | server/controllers/users/student/studentController.js:855-869 | After a fallback review, the card is due at time t exactly when t is at least now plus the interval. |
| FlashcardReview.FirstNamed | server/controllers/users/student/studentController.js:790 | `subjects.find` returns the first entry with that name (every entry before it has another name), or reports that no entry has it. |
| FlashcardReview.ContextFor | server/controllers/users/student/studentController.js:789-796 | Without a subject, the prompt context is 4 hours and "medium"; the hours are never 0. |
| FlashcardReview.ReviewContextIsDefault | server/controllers/users/student/studentController.js:789-796 | A card has no subject field, so every review's context is 4 hours and "medium", whatever the profile says. |
| FlashcardReview.UpdateFlashcardReview | server/controllers/users/student/studentController.js:766-877 | A missing card or another user's card gives 404. A missing profile fails and a rating outside 1 to 5 fails validation; neither changes anything. Otherwise exactly that card is replaced by its reviewed version. |
| FlashcardReview.DueCards | server/controllers/users/student/studentController.js:746-749 | The query keeps exactly the requester's cards of that deck that are due now: each such card as many times as it is stored, every other card never. |
| FlashcardReview.DueCardsKeepsUniqueIds | server/controllers/users/student/studentController.js:746-749 | Over a store with distinct ids, the due cards have distinct ids. |
| FlashcardReview.SubMultisetKeepsUniqueIds | server/controllers/users/student/studentController.js:746-751 | Any selection of stored cards, in any order, has distinct ids when the store does, so neither the filter nor the sort can repeat a card. |
| FlashcardReview.InsertByKey | server/controllers/users/student/studentController.js:750 | Inserting into a list sorted by (confidence, next review) keeps it sorted and adds exactly that card. |
| FlashcardReview.SortByKey | server/controllers/users/student/studentController.js:750 | The sort returns a permutation of its input, ordered by confidence and then by next review. |
| FlashcardReview.GetStudySession | server/controllers/users/student/studentController.js:742-763 | A session holds exactly the requester's due cards of that deck, each as many times as it is stored, and so each once when the store's ids are distinct. They are sorted by confidence and then by next review, and `totalDue` is their number. The deck is whatever has that id, if anything. |
| FlashcardReview.ReviewedCardNotDue | server/controllers/users/student/studentController.js:745-869 | After a fallback review, no stored card with the reviewed card's id is due until the interval has passed. |
| FlashcardReview.ReviewedCardLeavesSession | server/controllers/users/student/studentController.js:745-869 | After a fallback review, the card is in no session before its new next-review time. |
| FlashcardReview.WithoutDeck | server/controllers/users/student/studentController.js:895 | `deleteMany({ deckId })` keeps exactly the cards of other decks, each as many times as it was stored, and none of the deleted deck. |
| FlashcardReview.WithoutDeckKeepsUniqueIds | server/controllers/users/student/studentController.js:895 | Removing cards keeps the remaining ids distinct. |
| FlashcardReview.DeleteFlashcardDeck | server/controllers/users/student/studentController.js:880-902 | If a deck with that id belongs to the requester, it is deleted together with every card of that deck. Otherwise the answer is 404 and nothing changes. |
| FlashcardReview.NoDueCardsOutsideDeck | server/controllers/users/student/studentController.js:746-749 | Cards of other decks never make a card due for this one. |
| FlashcardReview.EmptyDueEmptySession | server/controllers/users/student/studentController.js:745-763 | When no card is due, the session has no cards. |
| FlashcardReview.DeletedDeckSessionIsEmpty | server/controllers/users/student/studentController.js:742-902 | After the cascade delete, a session for that deck is empty and has no deck. |
| QuizSubmission.CorrectCount | server/controllers/users/student/studentController.js:437 | The number of correct answers is at most the number of answers; it is 0 when none is correct and all of them when all are. |
| QuizSubmission.PointsEarned | server/controllers/users/student/studentController.js:440-442 | The points a submission earns lie between 0 and 10 per answer and are a multiple of 10. |
| QuizSubmission.PointsAreTenPerCorrect | server/controllers/users/student/studentController.js:440-442 | The points earned are ten times the correct count. |
| QuizSubmission.PointsIgnoreAnswerPoints | server/controllers/users/student/studentController.js:440-442 | The points depend only on which answers are correct, not on the points the answers carry. |
| QuizSubmission.RoundPercent | server/controllers/users/student/studentController.js:439 | `Math.round((part / whole) * 100)`, taken exactly: the integer nearest to the exact percentage, halves rounding up; a part within the whole gives 0 to 100. |
| QuizSubmission.AnswerSubjects | server/controllers/users/student/studentController.js:447-448 | `map((a) => a.subject)` holds each answer's subject at its position. |
| QuizSubmission.NewRecord | server/controllers/users/student/studentController.js:445-456 | The record's totals and correct count come from the answers, its score is their rounded percentage (0 to 100), and its points are ten per correct answer. Its subjects are the distinct answer subjects in first-occurrence order. |
| QuizSubmission.TotalsBounded | server/controllers/users/student/studentController.js:463-471 | Over a well-formed history, the total correct lies between 0 and the total questions, which are positive when there is a record. |
| QuizSubmission.AccuracyIsPercentage | server/controllers/users/student/studentController.js:463-474 | The accuracy rate over a non-empty, well-formed history is a percentage from 0 to 100. |
| QuizSubmission.NextStreak | server/controllers/users/student/studentController.js:477-486 | The streak either grows by one, stays, or restarts at 1, and the first quiz always grows it. |
| QuizSubmission.NextStreakCases | server/controllers/users/student/studentController.js:477-486 | The streak grows by one after a first quiz or when the previous quiz was yesterday. It stays when the previous quiz was today and restarts at 1 otherwise. |
| QuizSubmission.AfterSubmit | server/controllers/users/student/studentController.js:458-487 | A submission appends exactly one record and adds its points to the total. The accuracy rate is taken over the whole history including the new record, and the streak moves as above. No other profile field changes. |
| QuizSubmission.SubmitKeepsHistoryWellFormed | server/controllers/users/student/studentController.js:445-474 | A submission keeps the history well formed and its accuracy rate within 0 to 100. |
| QuizSubmission.SubmitQuiz | server/controllers/users/student/studentController.js:426-520 | Without a profile the answer is 404, and an empty submission fails to save; neither changes anything. Otherwise exactly the requester's profile is replaced by its submitted version, and the response carries the record's score, counts and points, the recommendations, the new total and the new streak. Every stored profile keeps a well-formed history and an accuracy rate within 0 to 100. |
| QuizSubmission.AdviceTier | server/controllers/users/student/studentController.js:496-501 | The top message applies from a score of 80 and the middle one from 60. |
| QuizSubmission.AdviceTierMonotone | server/controllers/users/student/studentController.js:496-501 | A better score never gets a lower tier of advice. |
| QuizSubmission.Recommendations | server/controllers/users/student/studentController.js:496-504 | There are three recommendations: the tiered message, then the two fixed ones. |
| QuizSubmission.SampleQuestions | server/controllers/users/student/studentController.js:400-414 | `Array.from({ length: n }, …)` is n sample questions, in order. |
| QuizSubmission.FallbackQuiz | server/controllers/users/student/studentController.js:394-415 | The fallback quiz allows 60 s and advertises 10 points per requested question, yet holds only the first three of them (none for a count of 0 or less), each a sample question worth 10. |
| QuizSubmission.SamplePointsSum | server/controllers/users/student/studentController.js:399-414 | n sample questions are worth 10·n points. |
| QuizSubmission.FallbackTotalMatchesIff | server/controllers/users/student/studentController.js:398-414 | The advertised total equals the questions' points exactly when 0 to 3 questions were requested. |
| QuizSubmission.ChatWindow | server/controllers/users/student/studentController.js:588-592 | The new history is the last four entries, or all of them if fewer, followed by the user's message and the reply. |
| QuizSubmission.ChatWindowBounded | server/controllers/users/student/studentController.js:588-592 | The window sent back never exceeds six entries. |
| QuizSubmission.HandleAIChat | server/controllers/users/student/studentController.js:543-610 | No profile gives 404. A profile whose call to the model throws gives 500. Otherwise the answer is the reply together with the window. |
| UserModel.ParseRole | server/models/User/User.model.js:56-60 | The role validator accepts exactly admin, teacher, student and guest. |
| UserModel.NewUser | server/models/User/User.model.js:8-93 | A new user has the given fields and the defaults: local sign-in, role student when none is given, unverified, unblocked, no tokens, no posts and no follow edges. |
| UserModel.WithVerificationToken | server/models/User/User.model.js:98-111 | The verification method stores the digest of the raw token with an expiry ten minutes on, and changes no other field. |
| UserModel.WithResetToken | server/models/User/User.model.js:114-127 | The reset method stores the digest with an expiry ten minutes on, and changes no other field. |
| UserModel.VerificationMatches | server/controllers/users/userController.js:303-308 | The `verifyAccount` query matches only a user whose stored digest is that of the token and whose expiry lies after now; a user with no token or no expiry never matches. |
| UserModel.ResetMatches | server/controllers/users/userController.js:363-368 | The `resetPassword` query matches only a user whose stored reset digest is that of the token and whose expiry lies after now; a cleared token never matches. |
| UserModel.VerificationTokenRoundTrip | server/models/User/User.model.js:98-111 | After issue, a token matches exactly when it is the raw token handed out and less than 600 000 ms have passed. |
| UserModel.ResetTokenRoundTrip | server/models/User/User.model.js:114-127 | The same holds for the reset token. |
| UserModel.TokensIndependent | server/models/User/User.model.js:98-127 | Issuing one kind of token leaves the other kind's match unchanged. |
| UserModel.UserDocument.GenerateAccountVerificationToken | server/models/User/User.model.js:98-111 | The method returns the raw token and leaves the record with its digest and expiry. |
| UserModel.UserDocument.GeneratePasswordResetToken | server/models/User/User.model.js:114-127 | The method returns the raw token and leaves the record with its digest and expiry. |
| UserModel.UserDocument.constructor | server/models/User/User.model.js:8-93 | The document wraps the given record. |
| UserModel.UserCollection.constructor | server/models/User/User.model.js:8-93 | The collection starts empty. |
| UserModel.UserCollection.Save | server/controllers/users/userController.js:290 | `save()` stores the document's record under its id and leaves the other users alone. |
| UserController.Followed | server/controllers/users/userController.js:227-241 | After a follow, u follows v and v has u among its followers. All other entries keep their membership, and other users are untouched. |
| UserController.Unfollowed | server/controllers/users/userController.js:265-268 | After an unfollow, u no longer follows v and v no longer lists u. All other entries keep their membership. |
| UserController.FollowIdempotent | server/controllers/users/userController.js:227-241 | Following twice is following once. |
| UserController.UnfollowUndoesFollow | server/controllers/users/userController.js:213-268 | Unfollowing a user one did not follow before undoes the follow. |
| UserController.FollowKeepsSymmetry | server/controllers/users/userController.js:213-268 | Both handlers keep "a follows b" equivalent to "b lists a as a follower". |
| UserController.FollowUser | server/controllers/users/userController.js:213-247 | Self-follow is refused first, then a missing target. Otherwise the store becomes the followed state; on a refusal nothing changes. |
| UserController.UnfollowUser | server/controllers/users/userController.js:250-273 | A missing requester, then a missing target, then self-unfollow is refused. Otherwise the store becomes the unfollowed state. |
| UserController.Verified | server/controllers/users/userController.js:314-316 | After verification the address is verified and no token matches any more; no other field changes. |
| UserController.PasswordReset | server/controllers/users/userController.js:373-378 | After a reset the password is the hash of the new one and no reset token matches any more. |
| UserController.VerificationTokenIsOneShot | server/controllers/users/userController.js:300-326 | An issued token verifies before its expiry, and never again once it has been used. |
| UserController.ResetTokenIsOneShot | server/controllers/users/userController.js:356-386 | An issued reset token works before its expiry, and never again once it has been used. |
| UserController.VerifyEmail | server/controllers/users/userController.js:276-297 | A missing user, then a missing or empty e-mail, is refused without change. Otherwise the user gets a fresh token, saved with its expiry, and the raw token is what is e-mailed (the result); no success answer is sent. |
| UserController.VerifyAccount | server/controllers/users/userController.js:300-326 | This succeeds exactly when some user's stored digest matches and has not expired; that user becomes verified. Otherwise nothing changes. |
| UserController.EmailFilterMatches | server/controllers/users/userController.js:397 | `findOne({ email })` with an absent e-mail drops the key and matches every user; with an e-mail it matches exactly the users having it. |
| UserController.RequestPasswordReset | server/controllers/users/userController.js:329-353 | A request whose e-mail matches no stored user is refused without change; without an e-mail every stored user matches, so it is refused only when nobody is stored. An account that is not local is refused next, without change. Otherwise a matching user gets a fresh reset token, saved with its expiry and e-mailed to that user. |
| UserController.ResetPassword | server/controllers/users/userController.js:356-386 | This succeeds exactly when some user's reset digest matches and has not expired; that user gets the new password. Otherwise nothing changes. |
| UserController.RegisterAsWritten | server/controllers/users/userController.js:35-73 | As written, an existing user with both that username and e-mail is refused, and so is an input the schema rejects; neither changes anything. When the request crashes, the new user is left stored with no profile linked. |
| UserController.RegisterAsWrittenFailsForTeachers | server/controllers/users/userController.js:57-65 | A valid new teacher ends up stored, yet the request fails. |
| UserController.Register | server/controllers/users/userController.js:35-73 | An existing user with that username and e-mail is refused, then an input the schema rejects; neither changes anything. Otherwise the user is stored with the bcrypt hash, unverified, local, and with the given role or student. A student gets a new profile linked both ways; any other role gets none. |
| UserController.RegisterAcceptsEveryRole | server/controllers/users/userController.js:35-73 | Every new, valid registration succeeds, whatever its role. |
| UserController.RegisterAgreesForStudents | server/controllers/users/userController.js:57-65 | For a student, the corrected registration and the one as written coincide. |
| UserController.RegisterUser | server/controllers/users/userController.js:35-73 | The two collections end exactly as the corrected registration says; without an e-mail, any user with that username counts as existing. Every stored profile keeps well-formed quiz statistics. |
| UserController.RegisterKeepsStats | server/controllers/users/userController.js:56-60 | Registration adds at most the fresh default profile, so every stored profile keeps a well-formed history and an accuracy rate within 0 to 100. |
| UserController.WithNewEmail | server/controllers/users/userController.js:410-411 | The new address is stored and marked unverified; nothing else changes. |
| UserController.UpdateEmailAsWritten | server/controllers/users/userController.js:389-425 | An e-mail that matches a stored user is refused, and without an e-mail that is every stored user, the requester included. A missing requester is refused next. On success only the address and the verified flag are saved. |
| UserController.EmailedTokenRejectedAsWritten | server/controllers/users/userController.js:410-416 | As written, the token in the e-mail never verifies the new address, unless the user already held that very token. |
| UserController.UpdateEmail | server/controllers/users/userController.js:389-425 | The same refusals, e-mail matching included. With the token generated before the save, the address, the flag and the new token are all stored. |
| UserController.EmailedTokenAccepted | server/controllers/users/userController.js:410-416 | With the token stored, the e-mailed token verifies the new address within ten minutes. |
| UserController.UpdateUserEmail | server/controllers/users/userController.js:389-425 | The collection ends exactly as the corrected update says, for a given or an absent e-mail. |
| UserController.AbsentEmailIsInUse | server/controllers/users/userController.js:390-400 | A request without an e-mail is answered "Email is already in use" by both versions whenever any user is stored, and "User not found" when none is. |
| UserController.UpdatedEmailWasGiven | server/controllers/users/userController.js:397-408 | Neither version ever succeeds with an absent e-mail, so an address is replaced only by one the request gave. |
| UserController.WithBlocked | server/controllers/users/userController.js:449-453 | Only the flag of that one user changes. |
| UserController.LastBlockWins | server/controllers/users/userController.js:446-487 | Of two block or unblock updates, the last one decides. |
| UserController.UnblockUndoesBlock | server/controllers/users/userController.js:446-487 | Unblocking a user that was not blocked undoes a block. |
| UserController.SetBlocked | server/controllers/users/userController.js:446-487 | A missing user is refused. Otherwise the flag is set and the username returned. |
| PostSchema.NewPost | server/models/Post/Post.model.js:4-59 | A new post has zero views, is not blocked, and its likes, dislikes, viewers and comments are empty. |
| PostSchema.PostCollection.constructor | server/models/Post/Post.model.js:4-59 | The collection starts empty. |
| PostSchema.CategoryCollection.constructor | server/models/Category/Category.model.js:14-19 | The collection starts empty. |
| PostController.Liked | server/controllers/post/postController.js:173-185 | After a like, the user is not among the dislikes, and the user's like toggles. Every other user's entries keep their membership. |
| PostController.Disliked | server/controllers/post/postController.js:203-214 | After a dislike, the user is not among the likes, and the user's dislike toggles. Every other user's entries keep their membership. |
| PostController.ReactionsStayWellFormed | server/controllers/post/postController.js:173-212 | Both toggles keep the lists free of duplicates, and no user both likes and dislikes. |
| PostController.LikeTwiceRestores | server/controllers/post/postController.js:173-183 | Liking twice from no reaction restores the post. |
| PostController.DislikeTwiceRestores | server/controllers/post/postController.js:203-212 | Disliking twice from no reaction restores the post. |
| PostController.LikePost | server/controllers/post/postController.js:162-192 | A missing post throws without change. Otherwise the liked post is saved and returned. |
| PostController.DislikePost | server/controllers/post/postController.js:195-221 | A missing post throws without change. Otherwise the disliked post is saved and returned. |
| PostController.Viewed | server/controllers/post/postController.js:133-141 | A signed-in user is added to the viewers with set semantics; with no user the post is unchanged. |
| PostController.ViewedIdempotent | server/controllers/post/postController.js:133-141 | Repeated views by the same user do not grow the viewers. |
| PostController.GetPost | server/controllers/post/postController.js:119-148 | A missing post throws. Otherwise the post as loaded is returned and the viewer is recorded. |
| PostController.CreatePost | server/controllers/post/postController.js:10-61 | A missing category, then a missing author, then an empty trimmed description is refused without change. Otherwise the post is stored and its id appended to the category's and the author's posts, and every post stays back-linked. |
| PostController.Matching | server/controllers/post/postController.js:66-78 | The filter keeps exactly the posts of the given category, or all posts when no category is given. |
| PostController.CeilDiv | server/controllers/post/postController.js:89 | `Math.ceil(total / limit)` for a positive limit is the least number of pages that holds every post. |
| PostController.ListAllPosts | server/controllers/post/postController.js:64-91 | Page defaults to 1 and limit to 10. A negative skip is refused. Otherwise the listing holds the matching posts in order from index `(page - 1) * limit`, as many as the limit allows and as remain. `totalPages` is the ceiling of matches over limit; a limit of 0 returns every remaining post and no page count. |
| PostController.PageSlice | server/controllers/post/postController.js:79-80 | `skip(skip).limit(lim)`: a limit of 0 returns everything from `skip`; otherwise at most the absolute value of `lim` posts, and for a positive limit exactly the smaller of `lim` and the posts remaining; each returned post is the matching post at `skip` plus its position. |
| PostController.PageWithinCount | server/controllers/post/postController.js:89 | A page `q + 1` that starts before the last post is within `ceil(total / limit)`. |
| PostController.EveryPostIsOnItsPage | server/controllers/post/postController.js:79-89 | For a positive limit, the matching post at index `q·limit + j` (with `j < limit`) is at position `j` of page `q + 1`, and that page is between 1 and `totalPages`: every matching post is shown on some page. |
| PostController.DefaultListing | server/controllers/post/postController.js:66-80 | With no query, page 1 holds the first ten posts, newest first. |
| RegisterForm.CheckPassword | client/src/components/user/Register.jsx:37-43 | Each check holds exactly when the password has 8 or more UTF-16 code units, or respectively contains an upper-case letter, a lower-case letter, a digit or a listed symbol. |
| RegisterForm.Values | client/src/components/user/Register.jsx:37-45 | `Object.values(checks)` has five entries; all are true exactly when every check passes, and one is true exactly when some check passes. |
| RegisterForm.CountTrue | client/src/components/user/Register.jsx:45 | The count of passed checks is at most their number, and equals it exactly when all pass. |
| RegisterForm.ScoreOf | client/src/components/user/Register.jsx:36-45 | The score is between 0 and 5. |
| RegisterForm.Score | client/src/components/user/Register.jsx:35-45 | The `forEach` loop computes exactly the number of passed checks. |
| RegisterForm.StrengthOf | client/src/components/user/Register.jsx:50 | The strength is weak exactly for a score up to 2, medium for 3 or 4, and strong for 5. |
| RegisterForm.PasswordStrength | client/src/components/user/Register.jsx:89-95 | No meter is shown exactly for an empty password; otherwise the meter carries the score, the checks and the strength. |
| RegisterForm.StrongIff | client/src/components/user/Register.jsx:37-50 | A password is strong exactly when it has 8 or more UTF-16 code units and contains an upper-case letter, a lower-case letter, a digit and a listed symbol. |
| RegisterForm.AstralPasswordIsLongEnough | client/src/components/user/Register.jsx:38 | Four characters outside the Basic Multilingual Plane are four characters but eight code units, so they pass the length check. |
| RegisterForm.CountTrueMonotone | client/src/components/user/Register.jsx:45 | Passing more checks never lowers the count. |
| RegisterForm.AppendNeverLowersScore | client/src/components/user/Register.jsx:37-45 | Typing one more character never lowers the score. |
| RegisterForm.FieldErrors | client/src/components/user/Register.jsx:62-73 | Each field is rejected exactly when the schema rejects it: an empty username, an empty or malformed e-mail, a password under 8 UTF-16 code units (Yup's `min(8)` counts `length`), or a confirmation that is empty or different. |
| RegisterForm.SubmittedPasswordsAreConfirmed | client/src/components/user/Register.jsx:67-72 | The form passes exactly when every field is present, the e-mail is well formed, and the password has 8 or more UTF-16 code units and is repeated exactly. |
| RegisterForm.InitialFormRejected | client/src/components/user/Register.jsx:56-73 | The blank initial form is rejected on all four fields. |
| RegisterForm.SubmitData | client/src/components/user/Register.jsx:76 | The payload carries the username, e-mail and password of the form. |
| RegisterForm.SubmitDataDropsOnlyConfirmation | client/src/components/user/Register.jsx:76 | Two forms send the same payload exactly when they differ at most in the confirmation, and adding the confirmation back recovers the form. |
| SmartQuiz.FormatTime | client/src/components/user/student/SmartQuiz.jsx:205-209 | The clock text is digits, a colon and two digits. |
| SmartQuiz.ParseClock | client/src/components/user/student/SmartQuiz.jsx:205-209 | Reading a clock text back accepts only that shape. |
| SmartQuiz.FormatTimeRoundTrip | client/src/components/user/student/SmartQuiz.jsx:205-209 | The clock text reads back as the number of seconds it shows: minutes times 60 plus seconds. |
| SmartQuiz.FormatTimeInjective | client/src/components/user/student/SmartQuiz.jsx:205-209 | Different numbers of seconds never show the same clock. |
| SmartQuiz.TimeLimitOr300 | client/src/components/user/student/SmartQuiz.jsx:187 | `quiz?.timeLimit \|\| 300` is the quiz's limit, or 300 when there is no quiz or the limit is 0. |
| SmartQuiz.StartTimeAsWritten | client/src/components/user/student/SmartQuiz.jsx:130-137 | As written, the countdown starts from the quiz shown before the generated one: 300 on a fresh screen, else that quiz's own non-zero limit. |
| SmartQuiz.TimeTakenAsWritten | client/src/components/user/student/SmartQuiz.jsx:182-191 | As written, the time reported is the time elapsed exactly when the new quiz's limit equals the stale start. |
| SmartQuiz.StaleTimeLimitAsWritten | client/src/components/user/student/SmartQuiz.jsx:73-77 | As written, a fresh screen asking for 10 questions and given the fallback quiz (limit 600, three questions) starts at 300 seconds and at once reports 300 seconds taken; after a 20-question quiz, a 5-question one starts at 1200 and at once reports -900. |
| SmartQuiz.StartTime | client/src/components/user/student/SmartQuiz.jsx:130-137 | As intended, the countdown starts from the generated quiz's own limit. |
| SmartQuiz.TimeTakenIsElapsed | client/src/components/user/student/SmartQuiz.jsx:182-188 | With that start, the time taken reported is exactly the time elapsed. |
| SmartQuiz.AnswerFor | client/src/components/user/student/SmartQuiz.jsx:145-155 | The recorded answer is correct exactly when the selection equals the question's answer, and it carries the question's points and subject. |
| SmartQuiz.TimeUpAnswer | client/src/components/user/student/SmartQuiz.jsx:168-178 | The answer recorded at time-up is never correct and worth 0 points. |
| SmartQuiz.TimeUpScoresNothing | client/src/components/user/student/SmartQuiz.jsx:166-180 | The time-up answer adds nothing to the correct count or to the points. |
| SmartQuiz.QuizScreen.constructor | client/src/components/user/student/SmartQuiz.jsx:39-49 | The screen starts with no subjects, 5 questions, no quiz, no answers and a stopped clock. |
| SmartQuiz.QuizScreen.HandleSubjectChange | client/src/components/user/student/SmartQuiz.jsx:114-118 | Ticking a subject appends it; unticking removes every occurrence. Nothing else changes. |
| SmartQuiz.QuizScreen.HandleGenerateQuiz | client/src/components/user/student/SmartQuiz.jsx:120-128 | With no subject nothing happens. Otherwise one request with the subjects and count goes out, and the screen shows it is generating. |
| SmartQuiz.QuizScreen.OnQuizGenerated | client/src/components/user/student/SmartQuiz.jsx:73-77 | The generated quiz is shown and started from its first question, with no answers and, as intended (see Findings), the countdown at the new quiz's own limit. |
| SmartQuiz.QuizScreen.HandleAnswerSelect | client/src/components/user/student/SmartQuiz.jsx:139-141 | The selection is recorded; nothing else changes. |
| SmartQuiz.QuizScreen.CompleteQuiz | client/src/components/user/student/SmartQuiz.jsx:182-191 | Exactly one submission is sent, carrying the quiz id, the answers and `(limit or 300) - timeLeft`. |
| SmartQuiz.QuizScreen.HandleNextQuestion | client/src/components/user/student/SmartQuiz.jsx:143-164 | Exactly one answer is appended for the current question. After the last question the quiz is submitted; otherwise the index moves on by one. |
| SmartQuiz.QuizScreen.HandleTimeUp | client/src/components/user/student/SmartQuiz.jsx:166-180 | One submission goes out: the recorded answers followed by the current question as unanswered. The `answers` state itself is not updated. |
| SmartQuiz.QuizScreen.Tick | client/src/components/user/student/SmartQuiz.jsx:98-112 | Each second the countdown drops by one and never goes below 0. From 1 or less it stops at 0 and the time-up submission goes out. |
| SmartQuiz.QuizScreen.OnQuizSubmitted | client/src/components/user/student/SmartQuiz.jsx:87-91 | The results are shown and the quiz is marked completed. |
| SmartQuiz.QuizScreen.ResetQuiz | client/src/components/user/student/SmartQuiz.jsx:193-203 | Every field that `resetQuiz` names returns to its initial value, and the others are untouched. |
| SmartFlashcards.RatingButtonsAreValid | client/src/components/user/student/SmartFlashCards.jsx:296-320 | The four buttons send levels within 1 to 4, which the schema accepts, and a later button waits strictly longer under the fallback schedule. |
| SmartFlashcards.Advance | client/src/components/user/student/SmartFlashCards.jsx:102-112 | There is a next card exactly when the cursor is not on the last card, and it is the next index. |
| SmartFlashcards.CursorAfter | client/src/components/user/student/SmartFlashCards.jsx:87-112 | After `k` ratings the cursor, if the session is still open, is on one of its cards and at most `k`. |
| SmartFlashcards.SessionVisitsCardsInOrder | client/src/components/user/student/SmartFlashCards.jsx:92-111 | After k ratings the k-th card is shown, so every due card is shown once, in server order, and the session ends with the last rating. |
| SmartFlashcards.StudyScreen.constructor | client/src/components/user/student/SmartFlashCards.jsx:37-47 | The screen starts on the decks tab with no session and an empty form. |
| SmartFlashcards.StudyScreen.HandleStartStudy | client/src/components/user/student/SmartFlashCards.jsx:82-100 | A failed request, or one without due cards, changes nothing. Otherwise the cards are studied in the order received, from the first, with the answer hidden. |
| SmartFlashcards.StudyScreen.RevealAnswer | client/src/components/user/student/SmartFlashCards.jsx:285 | The answer is shown. |
| SmartFlashcards.StudyScreen.EditForm | client/src/components/user/student/SmartFlashCards.jsx:369-398 | An edit of the deck form makes the form exactly the edited value and changes nothing else. |
| SmartFlashcards.StudyScreen.HandleNextCard | client/src/components/user/student/SmartFlashCards.jsx:102-112 | This moves to the next card with its answer hidden. After the last card it returns to the decks with the session cleared, and the cursor stays on a card while studying. |
| SmartFlashcards.StudyScreen.HandleConfidenceRating | client/src/components/user/student/SmartFlashCards.jsx:114-117 | One review request goes out, with the shown card's id and a level from 1 to 4. |
| SmartFlashcards.StudyScreen.OnReviewSucceeded | client/src/components/user/student/SmartFlashCards.jsx:74-80 | A successful review moves on exactly as "next card" does. |
| SmartFlashcards.StudyScreen.HandleSubmit | client/src/components/user/student/SmartFlashCards.jsx:119-123 | The form is sent exactly when title, subject and content are all non-empty. |
| SmartFlashcards.StudyScreen.OnDeckGenerated | client/src/components/user/student/SmartFlashCards.jsx:60-64 | After generation the form is closed and emptied. |
| AuthRoute.Admits | client/src/components/auth-route/AuthRoute.jsx:31 | An absent role list admits every role, an empty one none, and otherwise a role is admitted exactly when it is in the list (`includes`). |
| AuthRoute.Decide | client/src/components/auth-route/AuthRoute.jsx:9-41 | While loading, the screen shows "checking"; with no user, it redirects to /login. A role that is not admitted sends a student to /student-dashboard and anyone else to /unauthorized. The page renders exactly when the role is admitted. |
| AuthRoute.StudentNeverUnauthorized | client/src/components/auth-route/AuthRoute.jsx:31-36 | A student never reaches /unauthorized. |
| AuthRoute.NoRolesAdmitsEveryone | client/src/components/auth-route/AuthRoute.jsx:31-40 | Without a role list, every signed-in user reaches the page. |
| AuthRoute.MoreRolesAdmitMore | client/src/components/auth-route/AuthRoute.jsx:31-40 | Admitting more roles never turns a render into a redirect. |
| AuthRoute.DecisionIsOneOfFive | client/src/components/auth-route/AuthRoute.jsx:23-40 | Every input ends in one of the five outcomes. |
| Navigation.ByRole | client/src/components/user/UserDashboard.jsx:88-90 | The filtered menu is no longer than the table. |
| Navigation.ByRoleMembers | client/src/components/user/UserDashboard.jsx:88-90 | An item is shown exactly when it is in the table and lists the role. |
| Navigation.ByRoleAppend | client/src/components/user/UserDashboard.jsx:19-90 | The filter keeps table order: filtering a concatenation concatenates the filtered parts. |
| Navigation.ByRoleAll | client/src/components/user/UserDashboard.jsx:88-90 | A table whose every item lists the role is shown whole. |
| Navigation.ByRoleNone | client/src/components/user/UserDashboard.jsx:88-90 | A role that no item lists sees nothing. |
| Navigation.Menu | client/src/components/user/UserDashboard.jsx:88-90 | A falsy role gives an empty menu; any other role gives the table filtered by it. |
| Navigation.Active | client/src/components/user/UserDashboard.jsx:92-127 | An item is highlighted exactly when the pathname equals its href. |
| Navigation.NoneActive | client/src/components/user/UserDashboard.jsx:92-127 | A menu with no link to the current page highlights nothing. |
| Navigation.AtMostOneActive | client/src/components/user/UserDashboard.jsx:92-127 | With distinct links, at most one item is highlighted. |
| Navigation.AdminMenu | client/src/components/user/UserDashboard.jsx:19-90 | An admin sees all seven links. |
| Navigation.TeacherMenu | client/src/components/user/UserDashboard.jsx:19-90 | A teacher sees the first five links: everything but "Add Category" and "Users". |
| Navigation.StudentStaffMenu | client/src/components/user/UserDashboard.jsx:19-90 | On the staff dashboard, a student sees exactly "Dashboard" and "My Followings". |
| Navigation.GuestMenus | client/src/components/user/UserDashboard.jsx:19-90 | The initial "guest" role sees no link on either dashboard. |
| Navigation.StudentDashboardMenus | client/src/components/user/student/StudentDashboard.jsx:28-99 | A student sees all eight links in table order; every other role, and no role, sees none. |
| Navigation.OneActiveLink | client/src/components/user/student/StudentDashboard.jsx:28-138 | Each table's links are distinct, so any menu drawn from it highlights at most one link. |
| Navigation.SubMenuDistinct | client/src/components/user/UserDashboard.jsx:88-90 | A menu drawn from a table with distinct links has distinct links. |
| Navigation.ByRoleDistinct | client/src/components/user/UserDashboard.jsx:88-90 | Filtering keeps links distinct. |
| ThemeSlice.InitialTheme | client/src/redux/slices/themeSlices.js:3-10 | The initial mode is the saved theme when there is a non-empty one, and "light" otherwise. |
| ThemeSlice.Toggled | client/src/redux/slices/themeSlices.js:20-21 | "light" becomes "dark"; every other mode becomes "light". |
| ThemeSlice.ToggleTwice | client/src/redux/slices/themeSlices.js:20-21 | Toggling twice restores "light" and "dark"; any other mode ends as "dark". |
| ThemeSlice.Saved | client/src/redux/slices/themeSlices.js:22-24 | Where there is storage, the theme key is set to the mode and the other keys stay. |
| ThemeSlice.ReloadRestoresMode | client/src/redux/slices/themeSlices.js:3-30 | After a reload, a non-empty saved mode comes back. |
| ThemeSlice.ThemeStore.constructor | client/src/redux/slices/themeSlices.js:12-14 | The store starts at the initial theme. |
| ThemeSlice.ThemeStore.ToggleTheme | client/src/redux/slices/themeSlices.js:19-24 | The mode toggles and is persisted. |
| ThemeSlice.ThemeStore.SetTheme | client/src/redux/slices/themeSlices.js:26-30 | The payload becomes the mode unvalidated and is persisted. |
| AuthSlice.AuthStore.constructor | client/src/redux/slices/authSlices.js:5-8 | The store starts with no user record and the role "guest". |
| AuthSlice.AuthStore.IsAuthenticated | client/src/redux/slices/authSlices.js:10-12 | The user record becomes the payload and the role is untouched. |
| AuthSlice.AuthStore.LogoutUser | client/src/redux/slices/authSlices.js:13-15 | The user record is cleared and the role is untouched. |
| AuthSlice.AuthStore.SetRole | client/src/redux/slices/authSlices.js:16-18 | The role becomes the payload and the user record is untouched. |
| ProfileSettings.WithoutIndex | client/src/components/user/student/StudentProfileSettings.jsx:103-108 | This removes exactly the entry at the index and keeps the others in order; an index out of range removes nothing. |
| ProfileSettings.RemoveUndoesAdd | client/src/components/user/student/StudentProfileSettings.jsx:88-108 | Removing the entry just added gives the list back. |
| ProfileSettings.SettingsScreen.constructor | client/src/components/user/student/StudentProfileSettings.jsx:42-62 | The form and the draft start at their initial values. |
| ProfileSettings.SettingsScreen.OnProfileLoaded | client/src/components/user/student/StudentProfileSettings.jsx:82-86 | A loaded profile replaces the form; without one the form stays. |
| ProfileSettings.SettingsScreen.SetSubjectName | client/src/components/user/student/StudentProfileSettings.jsx:260-264 | Only the draft's name changes. |
| ProfileSettings.SettingsScreen.SetHoursPerWeek | client/src/components/user/student/StudentProfileSettings.jsx:355-358 | Only the draft's hours change. They become the parsed number, or 1 for text that is not a number or is 0, and are never 0. |
| ProfileSettings.SettingsScreen.SetMaxSessionLength | client/src/components/user/student/StudentProfileSettings.jsx:575-578 | Only the session length changes, falling back to 90. |
| ProfileSettings.SettingsScreen.SetBreakDuration | client/src/components/user/student/StudentProfileSettings.jsx:598-601 | Only the break length changes, falling back to 15. |
| ProfileSettings.SettingsScreen.AddSubject | client/src/components/user/student/StudentProfileSettings.jsx:88-101 | A draft whose name trims to "" is ignored. Otherwise the draft, untrimmed, is appended and reset to its defaults, and no other form field changes. |
| ProfileSettings.SettingsScreen.RemoveSubject | client/src/components/user/student/StudentProfileSettings.jsx:103-108 | Exactly the entry at the index leaves, and no other field changes. |
| ProfileSettings.SettingsScreen.HandleSubmit | client/src/components/user/student/StudentProfileSettings.jsx:110-113 | One update request carrying the whole form goes out. |
| ProfileSettings.NumericFallbacks | client/src/components/user/student/StudentProfileSettings.jsx:357-600 | Empty or 0 text gives hours 1, session length 90 and break 15, and a positive number is taken as typed. |
| DailyPlanner.ActivityIcon | client/src/components/user/student/SmartDailyPlanner.jsx:78-89 | Study, break and review have their own icons; every other type gets the clock. |
| DailyPlanner.ActivityColor | client/src/components/user/student/SmartDailyPlanner.jsx:91-99 | Break comes before review, review before high priority, and high priority before the plain tone. |
| DailyPlanner.ColorPrecedence | client/src/components/user/student/SmartDailyPlanner.jsx:91-99 | A break or a review is coloured the same whatever its priority. |
| DailyPlanner.PriorityBadge | client/src/components/user/student/SmartDailyPlanner.jsx:101-109 | High and low have their own badges; every other priority gets the medium badge. |
| DailyPlanner.UnknownPriorityIsMedium | client/src/components/user/student/SmartDailyPlanner.jsx:101-109 | An unknown priority looks exactly like "medium". |
| DailyPlanner.Toggled | client/src/components/user/student/SmartDailyPlanner.jsx:130-140 | Toggling flips the membership of that index only. |
| DailyPlanner.ToggleTwice | client/src/components/user/student/SmartDailyPlanner.jsx:130-140 | Toggling the same goal twice restores the set. |
| DailyPlanner.TogglesCommute | client/src/components/user/student/SmartDailyPlanner.jsx:130-140 | Toggles of two goals commute. |
| DailyPlanner.PlannerScreen.constructor | client/src/components/user/student/SmartDailyPlanner.jsx:35-38 | The page starts without a plan, not generating, with no goal ticked off. |
| DailyPlanner.PlannerScreen.OnProfileLoaded | client/src/components/user/student/SmartDailyPlanner.jsx:52-56 | A stored plan of the loaded profile is shown. |
| DailyPlanner.PlannerScreen.HandleGeneratePlanner | client/src/components/user/student/SmartDailyPlanner.jsx:71-76 | A request goes out only when the profile is loaded. |
| DailyPlanner.PlannerScreen.OnGenerateSettled | client/src/components/user/student/SmartDailyPlanner.jsx:59-69 | Generation stops, and a returned plan replaces the old one. |
| DailyPlanner.PlannerScreen.ToggleGoal | client/src/components/user/student/SmartDailyPlanner.jsx:130-140 | The goal set becomes its toggle at that index. |
| CreatePostForm.FileCheckAsWritten | client/src/components/posts/CreatePost.jsx:56-77 | As written, the checks throw exactly when no file was picked. |
| CreatePostForm.CancelledPickerThrowsAsWritten | client/src/components/posts/CreatePost.jsx:56-71 | Closing the picker without a file makes the handler throw. |
| CreatePostForm.FileCheckOf | client/src/components/posts/CreatePost.jsx:56-77 | With the missing file handled: a file over 1 048 576 bytes is too large; otherwise a type outside jpeg/png/jpg is wrong; otherwise the file is accepted. |
| CreatePostForm.FileCheckAgreesOnFiles | client/src/components/posts/CreatePost.jsx:56-77 | For any picked file, the corrected checks and the ones as written agree. |
| CreatePostForm.SizeBoundary | client/src/components/posts/CreatePost.jsx:62-71 | A JPEG of exactly 1 MiB passes, and one byte more fails on size whatever its type. |
| CreatePostForm.FormErrors | client/src/components/posts/CreatePost.jsx:40-44 | Each of description, image and category is rejected exactly when missing. |
| CreatePostForm.PostForm.constructor | client/src/components/posts/CreatePost.jsx:15-19 | The form starts empty, with no error and no preview. |
| CreatePostForm.PostForm.HandleFileChange | client/src/components/posts/CreatePost.jsx:56-77 | With no file nothing changes. An oversized or mistyped file sets its error and keeps the image. An accepted file becomes the image and clears the error. |
| CreatePostForm.PostForm.RemoveImage | client/src/components/posts/CreatePost.jsx:80-84 | The image, the preview and the error are cleared. |
| CreatePostForm.PostForm.SetDescription | client/src/components/posts/CreatePost.jsx:128-131 | The description is the text typed. |
| CreatePostForm.PostForm.SetCategory | client/src/components/posts/CreatePost.jsx:155-156 | The category is the option picked. |
| CreatePostForm.PostForm.HandleSubmit | client/src/components/posts/CreatePost.jsx:45-51 | The three fields are sent exactly when none is missing. |
| PostsList.RequestFor | client/src/components/posts/PostsList.jsx:51-52 | Every request carries the category filter, the search text, the page and a limit of 10. |
| PostsList.ShowPagination | client/src/components/posts/PostsList.jsx:370 | The pager shows exactly when the first page would offer a "Next" button; a missing count hides it. |
| PostsList.ShowPrevious | client/src/components/posts/PostsList.jsx:375-382 | "Previous" shows exactly when the page it leads to, `page - 1`, is at least 1. |
| PostsList.ShowNext | client/src/components/posts/PostsList.jsx:391-398 | "Next" shows exactly when the page it leads to, `page + 1`, is within `totalPages`; a missing count hides it. |
| PostsList.PagerStaysInRange | client/src/components/posts/PostsList.jsx:370-398 | "Previous" is hidden exactly on page 1 and "next" exactly on the last page, so a page within the count stays within it. |
| PostsList.PagerMatchesListing | client/src/components/posts/PostsList.jsx:370-398 | Against the server's listing of 10 per page, the pager shows exactly when there are more than 10 posts. "Next" shows exactly when later posts exist. |
| PostsList.PostsScreen.constructor | client/src/components/posts/PostsList.jsx:38-40 | The page starts with no filters, an empty search box and page 1. |
| PostsList.PostsScreen.CurrentRequest | client/src/components/posts/PostsList.jsx:51-52 | The query in any state is the request built from the filters, the box and the page. |
| PostsList.PostsScreen.HandleCategoryFilter | client/src/components/posts/PostsList.jsx:65-69 | The category is set, the other filters kept, and the page reset to 1. |
| PostsList.PostsScreen.HandleSearch | client/src/components/posts/PostsList.jsx:71-73 | Typing changes only the search box. |
| PostsList.PostsScreen.HandleSearchSubmit | client/src/components/posts/PostsList.jsx:75-80 | The box becomes the title filter and the page is reset to 1. |
| PostsList.PostsScreen.HandlePageChange | client/src/components/posts/PostsList.jsx:82-86 | The page becomes the one chosen. |
| PostsList.PostsScreen.ClearFilters | client/src/components/posts/PostsList.jsx:87-92 | No filters, an empty box and page 1 remain, so the next request is the default one. |
| AccountSummary.LengthOr0 | client/src/components/user/AccountSummary.jsx:44-45 | `list?.length \|\| 0` is the length, or 0 for a missing list. |
| AccountSummary.Contribution | client/src/components/user/AccountSummary.jsx:53-57 | A missing post contributes nothing. |
| AccountSummary.Total | client/src/components/user/AccountSummary.jsx:48-58 | No posts give a total of 0. |
| AccountSummary.TotalAppend | client/src/components/user/AccountSummary.jsx:48-58 | Totals add up over any split of the posts. |
| AccountSummary.EmptyPostsAddNothing | client/src/components/user/AccountSummary.jsx:53-57 | Posts without any of the four arrays, and missing posts, add nothing. |
| AccountSummary.Totals | client/src/components/user/AccountSummary.jsx:48-58 | The `forEach` accumulates exactly, for each of views, likes, comments and dislikes, the sum over posts of that array's length. |
| AccountSummary.StatsOf | client/src/components/user/AccountSummary.jsx:60-111 | There are seven tiles in the fixed order Views, Followers, Likes, Dislikes, Following, Posts, Comments, each holding its total or count. |
| AccountSummary.Stats | client/src/components/user/AccountSummary.jsx:44-111 | There are seven tiles in the same order; before the profile answers, every tile reads 0. |
| AccountSummary.MissingFollowListsShowZero | client/src/components/user/AccountSummary.jsx:44-45 | Missing follow lists show 0 followers and 0 following. |
| AccountSummary.ShowVerificationPrompt | client/src/components/user/AccountSummary.jsx:200-203 | The prompt shows only while the mutation is idle, never for a user whose flag is `true`, and always for an idle mutation and a user who is missing or not known to be verified. |
| AccountSummary.PromptHidesOnceRequested | client/src/components/user/AccountSummary.jsx:200-203 | The verification prompt is hidden once the mutation has left idle, and for a verified user. Before any answer it is shown. |
| AccountSummary.VerificationRequest.constructor | client/src/components/user/AccountSummary.jsx:113-116 | The mutation starts idle with no request sent. |
| AccountSummary.VerificationRequest.Send | client/src/components/user/AccountSummary.jsx:118-120 | One request goes out and the mutation is pending. |
| AccountSummary.VerificationRequest.Settle | client/src/components/user/AccountSummary.jsx:113-116 | The mutation ends as succeeded or failed. |

## Left out

- Generative-model calls (quiz generation, flashcard generation, the daily plan, chat replies, scheduling advice) are foreign and nondeterministic. Their results are parameters: the advisory interval is `Option<int>` hours, and `None` stands for every way that branch throws.
- FlashcardReview.IntervalMs: takes an advisory value in whole hours, whereas the model may return a fractional number of hours.
- The prompt's mood, energy and difficulty "adjustments" are text sent to the model; no code computes them, so there is no behaviour to model.
- MongoDB itself is left out: queries, `populate`, the sort by `createdAt`, and the schema validators beyond the stated ranges. Collections are maps, and the flashcards are a sequence in stored order.
- PostController.Matching: ignores the title filter, a case-insensitive `$regex` built from user input. A regular expression engine is out of scope.
- PostController.Matching: takes its input as already newest first, since creation timestamps are not modelled.
- bcrypt, SHA-256, `crypto.randomBytes`, JWT, passport and cookies are modelled as injective constructors with the random bytes and salt as inputs.
- Sending e-mail (verification, reset, post notifications), the follower e-mail fan-out and the Cloudinary upload are I/O. In `verifyEmail`, the mail sender's failure path is not modelled.
- UserController.VerifyEmail: after a successful send the handler never answers the request (userController.js:290-296 responds only in the `catch`, with 500), so the request stays open; the model's `Ok` is the token that is e-mailed, not an answer, and no success response is modelled. AccountSummary.VerificationRequest.Settle is a parameter of the client model: against this handler only its failed settlement can happen, and the mutation otherwise stays pending.
- The notification `createPost` writes is not modelled.
- QuizSubmission.SubmitQuiz: omits the `Math.random` subject breakdown of the response.
- QuizSubmission.SubmitQuiz: `answers` is a list and `completedAt` a number, so two error paths are not modelled. A body without `answers` throws a TypeError at `answers.filter` and answers 500 with no change. An absent or unparsable `completedAt` gives an Invalid Date, and the `save` then fails its cast with no change.
- FlashcardReview.FallbackMs: the rating is an integer. JSON strings such as "2" and fractions such as 2.5 are not modelled. The schema casts and stores them as confidence, while the `===` chain sends them to the one-week interval. The same applies to FlashcardReview.FallbackTable and FlashcardReview.UpdateFlashcardReview.
- QuizSubmission.RoundPercent: the source rounds the double `(c / t) * 100`, whose product can fall just below an exact half, while the model rounds the exact ratio; for 23 correct of 40 the source stores 57 and the model 58 (likewise 29 of 200: 14 against 15), and the accuracy rate is computed the same way.
- SmartQuiz.QuizScreen.OnQuizGenerated: starts the countdown at the new quiz's own limit, the corrected behaviour; the handler as written starts it at the previous quiz's limit (see Findings), so the screen does not show the stale start or the time taken it leads to.
- UserController.RegisterUser, UserController.Register, UserController.RegisterAsWritten, UserController.ResetPassword: the `username`, `password` and `newPassword` body fields are assumed present. When the password is absent, `bcrypt.hash` throws before any write. When the username is absent, the existence filter shrinks to `{ email }`. Both end in an error with no change.
- Quiz ids built from `Date.now` are not modelled.
- Floating point is not modelled: scores, percentages and intervals are integers, and the progress-bar widths are dropped.
- Common.Day: takes the UTC day, while `toDateString` uses the server's local time zone.
- Concurrency is not modelled: the lost updates possible between a read and its `save`, React's batching of state updates, the interval timer, and query refetches.
- Each handler runs to completion, in order.
- SmartQuiz.QuizScreen.Tick: one call is one second of the interval. The stale closure of the interval's `handleTimeUp` is not modelled beyond the finding below.
- Strings are sequences of Unicode scalar values, not of UTF-16 code units, and there is no Unicode normalisation. Where the source compares `password.length` (RegisterForm.CheckPassword, RegisterForm.FieldErrors), the model counts code units with `Text.JsLength`, a character outside the Basic Multilingual Plane counting two. Other string operations (`trim`, equality, `parseInt`) do not depend on the difference.
- RegisterForm.FieldErrors: takes the verdict of the library's e-mail pattern as an input rather than modelling the regular expression.
- CreatePostForm.FormErrors: treats the image as missing only when none was picked; the library's handling of the initial empty string is not modelled.
- DailyPlanner.PriorityBadge: does not model that `colors[priority]` also reads inherited object keys such as "constructor".
- AccountSummary.Totals: assumes the posts array is present (the schema defaults it to `[]`), so the `forEach` on a missing array is not modelled.
- The energy slider, the rest of the settings inputs, and all JSX rendering are presentation.
- The category, comment and notification controllers, the middlewares, routers, server start-up and the API service files are thin wrappers.
- The presentational pages are not modelled either.
- `getStudySession` answers 200 with a `null` deck when no deck has that id. The model follows the code: `deck` is an `Option` and there is no not-found error.
- The scheduling code applies no clamp to the model's interval, and none is modelled.
- Generated ids (`_id`) are parameters required to be fresh.
- QuizSubmission.FallbackQuiz: with no subject sent, the source's `subject: subjects[0]` is `undefined`, so the field is absent from the JSON answer; the model stores the text "undefined" there, the value the question's title shows.
- QuizSubmission.HandleAIChat: a model answer without text is answered with status 200 and an undefined reply; the model folds every failure of the call into `None` (500) and every answer into its text.

## Findings

| source | as written | input that shows it | evidently intended | confidence | as-written member | corrected member |
|---|---|---|---|---|---|---|
| server/controllers/users/userController.js:57-65 | `userCreated.studentProfile = newStudentProfile._id` runs for every role, but the profile exists only for students | register with role "teacher": the user is stored, then the dereference of `undefined` throws and the request fails | link a profile only when one was created; every role registers successfully | high, not executed | UserController.RegisterAsWritten, UserController.RegisterAsWrittenFailsForTeachers | UserController.Register, UserController.RegisterAcceptsEveryRole, UserController.RegisterAgreesForStudents |
| server/controllers/users/userController.js:410-416 | the verification token is generated after the only `save`, so its digest is never stored | updateEmail to a free address, then verifyAccount with the e-mailed token: no stored digest matches | generate the token before saving, so that the e-mailed token verifies the new address | high, not executed | UserController.UpdateEmailAsWritten, UserController.EmailedTokenRejectedAsWritten | UserController.UpdateEmail, UserController.EmailedTokenAccepted |
| client/src/components/user/student/SmartQuiz.jsx:73-77 | `startQuiz` runs in the same callback as `setCurrentQuiz`, so it reads the previous quiz and falls back to 300 s | a fresh screen asking for 10 questions when the server returns its fallback quiz (limit 600, three questions): the clock starts at 300 and answering at once reports 600 - 300 = 300 s taken; a 20-question quiz followed by a 5-question one reports 300 - 1200 = -900 | start the countdown from the generated quiz's own limit, so that the time taken is the time elapsed | high, not executed | SmartQuiz.StartTimeAsWritten, SmartQuiz.TimeTakenAsWritten, SmartQuiz.StaleTimeLimitAsWritten | SmartQuiz.StartTime, SmartQuiz.TimeTakenIsElapsed, SmartQuiz.QuizScreen.OnQuizGenerated |
| client/src/components/posts/CreatePost.jsx:56-71 | `file && file.size > …` guards only the size test; the type test reads `file.type` unguarded | pick a file, then open the picker again and cancel it (a change event with an empty FileList fires only when the input already held a file): `files[0]` is undefined and reading `.type` throws | ignore a change event without a file | high, not executed | CreatePostForm.FileCheckAsWritten, CreatePostForm.CancelledPickerThrowsAsWritten | CreatePostForm.FileCheckOf, CreatePostForm.FileCheckAgreesOnFiles |
