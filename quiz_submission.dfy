/** Quiz accounting in the student controller (`submitQuiz`) together with
    the smaller pure pieces beside it: the fallback quiz that `generateQuiz`
    returns when the model fails, the score-dependent recommendation and the
    window of chat history that `handleAIChat` sends back.

    Percentages are `Math.round((part / whole) * 100)` computed exactly on
    integers; dates are compared as UTC day numbers. */
module QuizSubmission {
  import opened Common
  import opened MongoArrays
  import opened StudentProfileSchema
  import opened Text

  /** One submitted answer, as the quiz page builds it. */
  datatype Answer = Answer(
    questionId: string,
    selectedAnswer: string,
    correctAnswer: string,
    isCorrect: bool,
    points: int,
    subject: string)

  // ----- score, points and subjects -----

  /** `answers.filter((a) => a.isCorrect).length`. */
  function CorrectCount(answers: seq<Answer>): (n: nat)
    ensures n <= |answers|
    ensures n == 0 <== forall i :: 0 <= i < |answers| ==> !answers[i].isCorrect
    ensures n == |answers| <== forall i :: 0 <= i < |answers| ==> answers[i].isCorrect
  {
    if answers == [] then 0
    else CorrectCount(answers[..|answers| - 1]) + (if answers[|answers| - 1].isCorrect then 1 else 0)
  }

  /** The `reduce` that awards 10 points per correct answer. */
  function PointsEarned(answers: seq<Answer>): (p: int)
    ensures 0 <= p <= 10 * |answers|
    ensures p % 10 == 0
  {
    if answers == [] then 0
    else PointsEarned(answers[..|answers| - 1]) + (if answers[|answers| - 1].isCorrect then 10 else 0)
  }

  /** Ten points per correct answer, whatever points the answers carry. */
  lemma {:induction false} PointsAreTenPerCorrect(answers: seq<Answer>)
    ensures PointsEarned(answers) == 10 * CorrectCount(answers)
  {
    if answers != [] {
      PointsAreTenPerCorrect(answers[..|answers| - 1]);
    }
  }

  /** The points only depend on which answers are correct. */
  lemma {:induction false} PointsIgnoreAnswerPoints(a: seq<Answer>, b: seq<Answer>)
    requires |a| == |b|
    requires forall i :: 0 <= i < |a| ==> a[i].isCorrect == b[i].isCorrect
    ensures PointsEarned(a) == PointsEarned(b)
  {
    if a != [] {
      PointsIgnoreAnswerPoints(a[..|a| - 1], b[..|b| - 1]);
    }
  }

  /** `Math.round((part / whole) * 100)` taken exactly: the integer nearest
      to the percentage, halves rounded up. */
  function RoundPercent(part: int, whole: int): (r: int)
    requires whole > 0
    ensures 2 * whole * r <= 200 * part + whole < 2 * whole * (r + 1)
    ensures 0 <= part <= whole ==> 0 <= r <= 100
  {
    var x := 200 * part + whole;
    var r := x / (2 * whole);
    DivBrackets(x, 2 * whole);
    assert 0 <= part <= whole ==> 0 <= r <= 100 by {
      if 0 <= part <= whole {
        assert 2 * whole * r <= x < 2 * whole * 101;
        MulCancelLess(2 * whole, r, 101);
        assert 0 < x < 2 * whole * (r + 1);
        assert 2 * whole * 0 < 2 * whole * (r + 1);
        MulCancelLess(2 * whole, 0, r + 1);
      }
    }
    r
  }

  /** The subject of every answer, in order. */
  function AnswerSubjects(answers: seq<Answer>): (r: seq<string>)
    ensures |r| == |answers|
    ensures forall i :: 0 <= i < |r| ==> r[i] == answers[i].subject
  {
    if answers == [] then [] else AnswerSubjects(answers[..|answers| - 1]) + [answers[|answers| - 1].subject]
  }

  /** The record appended to the history for a non-empty submission. */
  function NewRecord(quizId: string, answers: seq<Answer>, completedAt: int, timeTaken: int): (r: QuizRecord)
    requires answers != []
    ensures r.totalQuestions == |answers| && r.correctAnswers == CorrectCount(answers)
    ensures r.score == RoundPercent(r.correctAnswers, r.totalQuestions) && 0 <= r.score <= 100
    ensures r.pointsEarned == 10 * r.correctAnswers
    ensures forall s :: s in r.subjects <==> exists i :: 0 <= i < |answers| && answers[i].subject == s
    ensures NoDuplicates(r.subjects)
    ensures InFirstOccurrenceOrder(AnswerSubjects(answers), r.subjects)
    ensures r.completedAt == completedAt && r.quizId == quizId && r.difficulty == Medium
  {
    var correct := CorrectCount(answers);
    PointsAreTenPerCorrect(answers);
    var subjects := AnswerSubjects(answers);
    assert forall s :: s in subjects <==> exists i :: 0 <= i < |answers| && answers[i].subject == s by {
      forall s | s in subjects
        ensures exists i :: 0 <= i < |answers| && answers[i].subject == s
      {
        var i :| 0 <= i < |subjects| && subjects[i] == s;
        assert answers[i].subject == s;
      }
    }
    QuizRecord(quizId, Distinct(subjects), RoundPercent(correct, |answers|), |answers|, correct,
               PointsEarned(answers), completedAt, timeTaken, Medium)
  }

  // ----- accuracy and streak -----

  function TotalCorrect(history: seq<QuizRecord>): int {
    if history == [] then 0
    else TotalCorrect(history[..|history| - 1]) + history[|history| - 1].correctAnswers
  }

  function TotalQuestions(history: seq<QuizRecord>): int {
    if history == [] then 0
    else TotalQuestions(history[..|history| - 1]) + history[|history| - 1].totalQuestions
  }

  lemma {:induction false} TotalsBounded(history: seq<QuizRecord>)
    requires HistoryWellFormed(history)
    ensures 0 <= TotalCorrect(history) <= TotalQuestions(history)
    ensures history != [] ==> TotalQuestions(history) > 0
  {
    if history != [] {
      TotalsBounded(history[..|history| - 1]);
    }
  }

  /** The accuracy rate over a well-formed, non-empty history is a
      percentage. */
  lemma AccuracyIsPercentage(history: seq<QuizRecord>)
    requires HistoryWellFormed(history) && history != []
    ensures TotalQuestions(history) > 0
    ensures 0 <= RoundPercent(TotalCorrect(history), TotalQuestions(history)) <= 100
  {
    TotalsBounded(history);
  }

  /** The streak after the history has grown to `all` at time `now`. The day
      of the second-to-last record (the previous quiz) is compared with the
      day of `now` and the day of `now - 24 h`. */
  function NextStreak(streak: int, all: seq<QuizRecord>, now: int): (r: int)
    ensures r == streak + 1 || r == streak || r == 1
    ensures |all| == 1 ==> r == streak + 1
  {
    var lastDay := if |all| >= 2 then Some(Day(all[|all| - 2].completedAt)) else None;
    if lastDay == Some(Day(now - MsPerDay)) || |all| == 1 then streak + 1
    else if lastDay != Some(Day(now)) then 1
    else streak
  }

  /** The three ways the streak moves, by the day of the previous quiz: the
      first quiz or a quiz the day before extends it, a quiz earlier the
      same day keeps it, and any other day restarts it at 1. */
  lemma NextStreakCases(streak: int, all: seq<QuizRecord>, now: int)
    requires all != []
    ensures |all| == 1 ==> NextStreak(streak, all, now) == streak + 1
    ensures |all| >= 2 && Day(all[|all| - 2].completedAt) == Day(now) - 1
            ==> NextStreak(streak, all, now) == streak + 1
    ensures |all| >= 2 && Day(all[|all| - 2].completedAt) == Day(now)
            ==> NextStreak(streak, all, now) == streak
    ensures |all| >= 2 && Day(all[|all| - 2].completedAt) != Day(now)
            && Day(all[|all| - 2].completedAt) != Day(now) - 1
            ==> NextStreak(streak, all, now) == 1
  {
    DayBefore(now);
  }

  // ----- submitQuiz -----

  /** The profile after a non-empty submission: one record appended, the
      points added, the accuracy recomputed over the whole history and the
      streak moved; every other field as it was. */
  function AfterSubmit(p: StudentProfile, quizId: string, answers: seq<Answer>,
                       completedAt: int, timeTaken: int, now: int): (q: StudentProfile)
    requires answers != []
    ensures q.quizHistory == p.quizHistory + [NewRecord(quizId, answers, completedAt, timeTaken)]
    ensures q.totalPoints == p.totalPoints + 10 * CorrectCount(answers)
    ensures TotalQuestions(q.quizHistory) > 0 ==>
            q.accuracyRate == RoundPercent(TotalCorrect(q.quizHistory), TotalQuestions(q.quizHistory))
    ensures q.quizStreak == NextStreak(p.quizStreak, q.quizHistory, now)
    ensures q.(quizHistory := p.quizHistory, totalPoints := p.totalPoints,
               accuracyRate := p.accuracyRate, quizStreak := p.quizStreak) == p
  {
    var record := NewRecord(quizId, answers, completedAt, timeTaken);
    var all := p.quizHistory + [record];
    var total := TotalQuestions(all);
    p.(quizHistory := all,
       totalPoints := p.totalPoints + record.pointsEarned,
       accuracyRate := if total > 0 then RoundPercent(TotalCorrect(all), total) else p.accuracyRate,
       quizStreak := NextStreak(p.quizStreak, all, now))
  }

  /** A submission keeps the history well formed, and the accuracy rate it
      stores is then a percentage over questions that exist. */
  lemma SubmitKeepsHistoryWellFormed(p: StudentProfile, quizId: string, answers: seq<Answer>,
                                     completedAt: int, timeTaken: int, now: int)
    requires answers != [] && HistoryWellFormed(p.quizHistory)
    ensures HistoryWellFormed(AfterSubmit(p, quizId, answers, completedAt, timeTaken, now).quizHistory)
    ensures TotalQuestions(AfterSubmit(p, quizId, answers, completedAt, timeTaken, now).quizHistory) > 0
    ensures 0 <= AfterSubmit(p, quizId, answers, completedAt, timeTaken, now).accuracyRate <= 100
  {
    var all := AfterSubmit(p, quizId, answers, completedAt, timeTaken, now).quizHistory;
    assert RecordWellFormed(all[|all| - 1]);
    assert HistoryWellFormed(all);
    AccuracyIsPercentage(all);
  }

  /** The body of the successful response. */
  datatype QuizSummary = QuizSummary(
    score: int,
    correctAnswers: int,
    totalQuestions: int,
    pointsEarned: int,
    recommendations: seq<string>,
    newTotalPoints: int,
    currentStreak: int)

  datatype SubmitOutcome =
    | ProfileNotFound       // 404
    | SaveFailed            // no answers: the score is NaN and `save` rejects it
    | Submitted(summary: QuizSummary)

  /** `submitQuiz` for `requester` at time `now`. */
  method SubmitQuiz(profiles: ProfileCollection, requester: ObjectId, quizId: string,
                    answers: seq<Answer>, completedAt: int, timeTaken: int, now: int)
      returns (outcome: SubmitOutcome)
    requires profiles.Valid()
    modifies profiles
    ensures profiles.Valid()
    ensures old(profiles.StatsKept()) ==> profiles.StatsKept()
    ensures outcome.ProfileNotFound? <==> requester !in old(profiles.profiles)
    ensures outcome.SaveFailed? <==> requester in old(profiles.profiles) && answers == []
    ensures outcome.Submitted? ==>
      var before := old(profiles.profiles)[requester];
      var after := AfterSubmit(before, quizId, answers, completedAt, timeTaken, now);
      var record := NewRecord(quizId, answers, completedAt, timeTaken);
      profiles.profiles == old(profiles.profiles)[requester := after]
      && outcome.summary == QuizSummary(record.score, record.correctAnswers, record.totalQuestions,
                                        record.pointsEarned, Recommendations(record.score),
                                        after.totalPoints, after.quizStreak)
    ensures !outcome.Submitted? ==> profiles.profiles == old(profiles.profiles)
  {
    if requester !in profiles.profiles {
      return ProfileNotFound;
    }
    if answers == [] {
      return SaveFailed;
    }
    var profile := profiles.profiles[requester];
    var record := NewRecord(quizId, answers, completedAt, timeTaken);
    var updated := AfterSubmit(profile, quizId, answers, completedAt, timeTaken, now);
    if profiles.StatsKept() {
      SubmitKeepsHistoryWellFormed(profile, quizId, answers, completedAt, timeTaken, now);
    }
    profiles.profiles := profiles.profiles[requester := updated];
    outcome := Submitted(QuizSummary(record.score, record.correctAnswers, record.totalQuestions,
                                     record.pointsEarned, Recommendations(record.score),
                                     updated.totalPoints, updated.quizStreak));
  }

  // ----- recommendations -----

  const ExcellentAdvice := "Excellent work! Keep up the great performance!"
  const ProgressAdvice := "Good progress! Focus on challenging topics."
  const FundamentalsAdvice := "Consider reviewing fundamentals before advancing."
  const EnergyAdvice := "Try studying during your peak energy hours"
  const RecallAdvice := "Use active recall techniques for better retention"

  /** Which of the three score-dependent messages applies: 2 from 80, 1 from
      60, 0 below. */
  function AdviceTier(score: int): (t: nat)
    ensures t <= 2
    ensures t == 2 <==> score >= 80
    ensures t >= 1 <==> score >= 60
  {
    if score >= 80 then 2 else if score >= 60 then 1 else 0
  }

  /** A better score never gets a lower tier of advice. */
  lemma AdviceTierMonotone(a: int, b: int)
    requires a <= b
    ensures AdviceTier(a) <= AdviceTier(b)
  {
  }

  /** The three recommendations: the tiered message, then two fixed ones. */
  function Recommendations(score: int): (r: seq<string>)
    ensures |r| == 3 && r[1] == EnergyAdvice && r[2] == RecallAdvice
    ensures r[0] == [ExcellentAdvice, ProgressAdvice, FundamentalsAdvice][2 - AdviceTier(score)]
  {
    [if score >= 80 then ExcellentAdvice else if score >= 60 then ProgressAdvice else FundamentalsAdvice,
     EnergyAdvice, RecallAdvice]
  }

  // ----- the fallback quiz -----

  datatype Question = Question(
    questionId: string,
    question: string,
    options: seq<string>,
    correctAnswer: string,
    difficulty: Difficulty,
    points: int,
    subject: string,
    topic: string,
    timeEstimate: int)

  datatype Quiz = Quiz(quizId: string, subjects: seq<string>, timeLimit: int, totalPoints: int,
                       questions: seq<Question>)

  /** `${subjects[0]}`, which reads "undefined" when no subject was sent.
      The sample question's `subject` field takes the same value. */
  function FirstSubject(subjects: seq<string>): string {
    if subjects == [] then "undefined" else subjects[0]
  }

  function SampleQuestion(i: nat, subject: string): (q: Question) {
    Question("q" + NatToString(i + 1), "Sample question " + NatToString(i + 1) + " for " + subject,
             ["Option A", "Option B", "Option C", "Option D"], "Option A", Medium, 10, subject,
             "General", 60)
  }

  function SampleQuestions(n: nat, subject: string): (qs: seq<Question>)
    ensures |qs| == n
    ensures forall i :: 0 <= i < n ==> qs[i] == SampleQuestion(i, subject)
  {
    if n == 0 then [] else SampleQuestions(n - 1, subject) + [SampleQuestion(n - 1, subject)]
  }

  function SumPoints(qs: seq<Question>): int {
    if qs == [] then 0 else SumPoints(qs[..|qs| - 1]) + qs[|qs| - 1].points
  }

  /** The quiz returned when generation fails: a minute and 10 points per
      requested question, but at most three questions (none when the count
      is not positive), each worth 10 points with "Option A" correct. */
  function FallbackQuiz(quizId: string, subjects: seq<string>, questionCount: int): (q: Quiz)
    ensures q.timeLimit == 60 * questionCount && q.totalPoints == 10 * questionCount
    ensures |q.questions| == if questionCount <= 0 then 0 else if questionCount < 3 then questionCount else 3
    ensures forall i :: 0 <= i < |q.questions| ==>
      q.questions[i].points == 10 && q.questions[i].correctAnswer == "Option A"
      && q.questions[i].correctAnswer in q.questions[i].options
      && q.questions[i].subject == FirstSubject(subjects)
  {
    var n := if questionCount <= 0 then 0 else if questionCount < 3 then questionCount else 3;
    Quiz(quizId, subjects, questionCount * 60, questionCount * 10, SampleQuestions(n, FirstSubject(subjects)))
  }

  lemma {:induction false} SamplePointsSum(n: nat, subject: string)
    ensures SumPoints(SampleQuestions(n, subject)) == 10 * n
  {
    if n > 0 {
      var qs := SampleQuestions(n, subject);
      assert qs[..n - 1] == SampleQuestions(n - 1, subject);
      SamplePointsSum(n - 1, subject);
    }
  }

  /** The advertised total matches the points of the questions exactly when
      the count is between 0 and 3. */
  lemma FallbackTotalMatchesIff(quizId: string, subjects: seq<string>, questionCount: int)
    ensures SumPoints(FallbackQuiz(quizId, subjects, questionCount).questions)
            == FallbackQuiz(quizId, subjects, questionCount).totalPoints
            <==> 0 <= questionCount <= 3
  {
    var n := if questionCount <= 0 then 0 else if questionCount < 3 then questionCount else 3;
    SamplePointsSum(n, FirstSubject(subjects));
  }

  // ----- the chat window -----

  datatype ChatMessage = ChatMessage(role: string, message: string)

  /** `[...chatHistory.slice(-4), user, assistant]`: the last four entries
      at most, then the question and the reply. */
  function ChatWindow(history: seq<ChatMessage>, message: string, reply: string): (r: seq<ChatMessage>)
    ensures |r| == (if |history| < 4 then |history| else 4) + 2
    ensures r[..|r| - 2] == history[|history| - (|r| - 2)..]
    ensures r[|r| - 2] == ChatMessage("user", message) && r[|r| - 1] == ChatMessage("assistant", reply)
  {
    var kept := if |history| <= 4 then history else history[|history| - 4..];
    kept + [ChatMessage("user", message), ChatMessage("assistant", reply)]
  }

  /** Fed back, the window never grows past six entries. */
  lemma ChatWindowBounded(history: seq<ChatMessage>, message: string, reply: string)
    ensures |ChatWindow(history, message, reply)| <= 6
  {
  }

  datatype ChatOutcome = ChatProfileNotFound | ChatFailed | ChatAnswered(response: string, window: seq<ChatMessage>)

  /** `handleAIChat`: 404 without a profile, 500 when the call to the model
      throws (`reply` is `None`), otherwise its reply with the new window. */
  function HandleAIChat(hasProfile: bool, reply: Option<string>, history: seq<ChatMessage>,
                        message: string): (r: ChatOutcome)
    ensures !hasProfile <==> r.ChatProfileNotFound?
    ensures r.ChatFailed? <==> hasProfile && reply.None?
    ensures r.ChatAnswered? ==> r.response == reply.value && r.window == ChatWindow(history, message, reply.value)
  {
    if !hasProfile then ChatProfileNotFound
    else match reply
      case None => ChatFailed
      case Some(text) => ChatAnswered(text, ChatWindow(history, message, text))
  }
}
