/** The quiz-taking screen: subject selection, generation, answering one
    question after another, the countdown, submission and reset, and the
    `m:ss` clock text.

    Requests the screen sends (`generateQuizMutation.mutate`,
    `submitQuizMutation.mutate`) are appended to outboxes; their responses
    arrive through `OnQuizGenerated` and `OnQuizSubmitted`. */
module SmartQuiz {
  import opened Common
  import opened MongoArrays
  import opened Text
  import opened QuizSubmission

  // ---------------------------------------------------------------------
  // formatTime
  // ---------------------------------------------------------------------

  /** `${Math.floor(s / 60)}:${(s % 60).toString().padStart(2, "0")}`. */
  function FormatTime(seconds: nat): (t: string)
    ensures |t| >= 4 && t[|t| - 3] == ':'
    ensures AllDigits(t[..|t| - 3]) && AllDigits(t[|t| - 2..])
  {
    var mins, secs := NatToString(seconds / 60), Pad2(seconds % 60);
    var t := mins + ":" + secs;
    assert t[..|t| - 3] == mins && t[|t| - 2..] == secs;
    t
  }

  /** Reading a clock text back: minutes, a colon, two digits of seconds. */
  function ParseClock(t: string): (r: Option<nat>)
    ensures r.Some? ==> |t| >= 4 && t[|t| - 3] == ':'
  {
    if |t| >= 4 && t[|t| - 3] == ':' && AllDigits(t[..|t| - 3]) && AllDigits(t[|t| - 2..]) then
      Some(DigitsValue(t[..|t| - 3]) * 60 + DigitsValue(t[|t| - 2..]))
    else None
  }

  /** The clock text gives back the number of seconds it shows: minutes
      times sixty plus the padded seconds. */
  lemma FormatTimeRoundTrip(seconds: nat)
    ensures ParseClock(FormatTime(seconds)) == Some(seconds)
  {
    var mins, secs := NatToString(seconds / 60), Pad2(seconds % 60);
    var t := mins + ":" + secs;
    assert t == FormatTime(seconds);
    assert t[..|t| - 3] == mins && t[|t| - 2..] == secs;
    NatToStringValue(seconds / 60);
    assert DigitsValue(mins) * 60 + DigitsValue(secs) == seconds;
  }

  /** Different numbers of seconds never show the same clock. */
  lemma FormatTimeInjective(a: nat, b: nat)
    requires FormatTime(a) == FormatTime(b)
    ensures a == b
  {
    FormatTimeRoundTrip(a);
    FormatTimeRoundTrip(b);
  }

  // ---------------------------------------------------------------------
  // The timer limit
  // ---------------------------------------------------------------------

  /** `quiz?.timeLimit || 300`. */
  function TimeLimitOr300(quiz: Option<Quiz>): (t: int)
    ensures quiz.Some? && quiz.value.timeLimit != 0 ==> t == quiz.value.timeLimit
    ensures quiz.None? || quiz.value.timeLimit == 0 ==> t == 300
  {
    if quiz.Some? && quiz.value.timeLimit != 0 then quiz.value.timeLimit else 300
  }

  /** The countdown a generated quiz starts with, as written: `startQuiz`
      runs inside the response callback, in the render that still holds the
      quiz shown before, so the limit is read from that one. */
  function StartTimeAsWritten(shownBefore: Option<Quiz>, generated: Quiz): (t: int)
    ensures shownBefore.None? ==> t == 300
    ensures shownBefore.Some? && shownBefore.value.timeLimit != 0 ==> t == shownBefore.value.timeLimit
  {
    TimeLimitOr300(shownBefore)
  }

  /** ... while `completeQuiz` runs later and reads the new quiz's limit. */
  function TimeTakenAsWritten(shownBefore: Option<Quiz>, generated: Quiz, elapsed: int): (t: int)
    ensures t == elapsed <==> TimeLimitOr300(Some(generated)) == StartTimeAsWritten(shownBefore, generated)
  {
    TimeLimitOr300(Some(generated)) - (StartTimeAsWritten(shownBefore, generated) - elapsed)
  }

  /** On a fresh screen, asking for 10 questions when the server answers
      with its fallback quiz (a 600-second limit, three questions) counts
      down from 300, and answering at once reports 300 seconds taken. After
      a 20-question quiz, a 5-question one counts down from 1200 and
      answering it at once reports -900 seconds. */
  lemma StaleTimeLimitAsWritten()
    ensures FallbackQuiz("quiz", ["Maths"], 10).timeLimit == 600
    ensures |FallbackQuiz("quiz", ["Maths"], 10).questions| == 3
    ensures StartTimeAsWritten(None, FallbackQuiz("quiz", ["Maths"], 10)) == 300
    ensures TimeTakenAsWritten(None, FallbackQuiz("quiz", ["Maths"], 10), 0) == 300
    ensures StartTimeAsWritten(Some(FallbackQuiz("quiz", ["Maths"], 20)), FallbackQuiz("quiz", ["Maths"], 5)) == 1200
    ensures TimeTakenAsWritten(Some(FallbackQuiz("quiz", ["Maths"], 20)), FallbackQuiz("quiz", ["Maths"], 5), 0) == -900
  {
  }

  /** The countdown as intended: the generated quiz's own limit. */
  function StartTime(generated: Quiz): (t: int)
    ensures generated.timeLimit != 0 ==> t == generated.timeLimit
  {
    TimeLimitOr300(Some(generated))
  }

  /** With the intended start, the time reported is the time elapsed. */
  lemma TimeTakenIsElapsed(generated: Quiz, elapsed: int)
    ensures TimeLimitOr300(Some(generated)) - (StartTime(generated) - elapsed) == elapsed
  {
  }

  // ---------------------------------------------------------------------
  // Answers
  // ---------------------------------------------------------------------

  /** The answer `handleNextQuestion` records. */
  function AnswerFor(q: Question, selected: string): (a: Answer)
    ensures a.questionId == q.questionId && a.selectedAnswer == selected
    ensures a.correctAnswer == q.correctAnswer && a.subject == q.subject
    ensures a.isCorrect <==> selected == q.correctAnswer
    ensures a.points == q.points
  {
    Answer(q.questionId, selected, q.correctAnswer, selected == q.correctAnswer, q.points, q.subject)
  }

  /** The answer `handleTimeUp` records: never correct, worth nothing. */
  function TimeUpAnswer(q: Question, selected: string): (a: Answer)
    ensures a.questionId == q.questionId && a.selectedAnswer == selected
    ensures !a.isCorrect && a.points == 0
  {
    Answer(q.questionId, selected, q.correctAnswer, false, 0, q.subject)
  }

  /** A question left unanswered when the time runs out adds nothing to the
      server's count of correct answers or to the points earned. */
  lemma TimeUpScoresNothing(answers: seq<Answer>, q: Question, selected: string)
    ensures CorrectCount(answers + [TimeUpAnswer(q, selected)]) == CorrectCount(answers)
    ensures PointsEarned(answers + [TimeUpAnswer(q, selected)]) == PointsEarned(answers)
  {
    assert (answers + [TimeUpAnswer(q, selected)])[..|answers|] == answers;
  }

  /** What `completeQuiz` submits. */
  datatype Submission = Submission(quizId: string, answers: seq<Answer>, completedAt: int, timeTaken: int)

  /** What `generateQuizMutation.mutate` is sent. */
  datatype GenerateRequest = GenerateRequest(subjects: seq<string>, questionCount: int)

  class QuizScreen {
    var selectedSubjects: seq<string>
    var questionCount: int
    var currentQuiz: Option<Quiz>
    var currentQuestionIndex: int
    var selectedAnswer: string
    var answers: seq<Answer>
    var quizStarted: bool
    var quizCompleted: bool
    var quizResults: Option<QuizSummary>
    var timeLeft: int
    var isGenerating: bool
    var generateRequests: seq<GenerateRequest>
    var submissions: seq<Submission>

    /** The question index always points at a question of the quiz
        shown. */
    ghost predicate Valid()
      reads this
    {
      0 <= currentQuestionIndex
      && (currentQuiz.Some? && currentQuiz.value.questions != [] ==>
            currentQuestionIndex < |currentQuiz.value.questions|)
    }

    constructor ()
      ensures Valid()
      ensures selectedSubjects == [] && questionCount == 5 && currentQuiz.None?
      ensures currentQuestionIndex == 0 && selectedAnswer == "" && answers == []
      ensures !quizStarted && !quizCompleted && quizResults.None? && timeLeft == 0 && !isGenerating
      ensures generateRequests == [] && submissions == []
    {
      selectedSubjects, questionCount, currentQuiz := [], 5, None;
      currentQuestionIndex, selectedAnswer, answers := 0, "", [];
      quizStarted, quizCompleted, quizResults, timeLeft, isGenerating := false, false, None, 0, false;
      generateRequests, submissions := [], [];
    }

    /** Ticking a subject appends it; unticking removes every occurrence. */
    method HandleSubjectChange(subjectName: string, checked: bool)
      modifies this
      ensures selectedSubjects == if checked then old(selectedSubjects) + [subjectName]
                                  else Pull(old(selectedSubjects), subjectName)
      ensures !checked ==> subjectName !in selectedSubjects
      ensures unchanged(this`questionCount, this`currentQuiz, this`currentQuestionIndex, this`selectedAnswer,
                        this`answers, this`quizStarted, this`quizCompleted, this`quizResults, this`timeLeft,
                        this`isGenerating, this`generateRequests, this`submissions)
    {
      if checked {
        selectedSubjects := selectedSubjects + [subjectName];
      } else {
        selectedSubjects := Pull(selectedSubjects, subjectName);
      }
    }

    /** Nothing happens without a subject; otherwise a request goes out. */
    method HandleGenerateQuiz()
      modifies this
      ensures old(selectedSubjects) == [] ==> unchanged(this)
      ensures old(selectedSubjects) != [] ==>
                isGenerating
                && generateRequests == old(generateRequests) + [GenerateRequest(selectedSubjects, questionCount)]
      ensures unchanged(this`selectedSubjects, this`questionCount, this`currentQuiz, this`currentQuestionIndex,
                        this`selectedAnswer, this`answers, this`quizStarted, this`quizCompleted,
                        this`quizResults, this`timeLeft, this`submissions)
    {
      if |selectedSubjects| == 0 {
        return;
      }
      isGenerating := true;
      generateRequests := generateRequests + [GenerateRequest(selectedSubjects, questionCount)];
    }

    /** The generation response: the quiz is shown and started from its
        first question with no answers. The countdown is the intended one,
        the new quiz's own limit (`StartTime`), where the handler as written
        starts it at `StartTimeAsWritten(old(currentQuiz), quiz)`. */
    method OnQuizGenerated(quiz: Quiz)
      requires Valid()
      modifies this
      ensures Valid()
      ensures currentQuiz == Some(quiz) && !isGenerating
      ensures quizStarted && !quizCompleted && currentQuestionIndex == 0 && selectedAnswer == "" && answers == []
      ensures timeLeft == StartTime(quiz)
      ensures unchanged(this`selectedSubjects, this`questionCount, this`quizResults, this`generateRequests,
                        this`submissions)
    {
      currentQuiz := Some(quiz);
      isGenerating := false;
      quizStarted := true;
      currentQuestionIndex := 0;
      selectedAnswer := "";
      answers := [];
      quizCompleted := false;
      timeLeft := StartTime(quiz);
    }

    method HandleAnswerSelect(answer: string)
      modifies this
      ensures selectedAnswer == answer
      ensures unchanged(this`selectedSubjects, this`questionCount, this`currentQuiz, this`currentQuestionIndex,
                        this`answers, this`quizStarted, this`quizCompleted, this`quizResults, this`timeLeft,
                        this`isGenerating, this`generateRequests, this`submissions)
    {
      selectedAnswer := answer;
    }

    /** `completeQuiz`: the answers are submitted with the time taken. */
    method CompleteQuiz(finalAnswers: seq<Answer>, now: int)
      requires currentQuiz.Some?
      modifies this`submissions
      ensures submissions == old(submissions)
                + [Submission(currentQuiz.value.quizId, finalAnswers, now, TimeLimitOr300(currentQuiz) - timeLeft)]
    {
      submissions := submissions + [Submission(currentQuiz.value.quizId, finalAnswers, now,
                                               TimeLimitOr300(currentQuiz) - timeLeft)];
    }

    /** "Next": exactly one answer is appended for the current question;
        the quiz is submitted when that was the last question, otherwise
        the next one is shown. */
    method HandleNextQuestion(now: int)
      requires Valid() && currentQuiz.Some? && currentQuiz.value.questions != []
      modifies this
      ensures unchanged(this`selectedSubjects, this`questionCount, this`currentQuiz, this`quizStarted,
                        this`quizCompleted, this`quizResults, this`timeLeft, this`isGenerating,
                        this`generateRequests)
      ensures Valid()
      ensures var q := currentQuiz.value.questions[old(currentQuestionIndex)];
              answers == old(answers) + [AnswerFor(q, old(selectedAnswer))]
      ensures selectedAnswer == ""
      ensures var last := old(currentQuestionIndex) + 1 >= |currentQuiz.value.questions|;
              (last ==> currentQuestionIndex == old(currentQuestionIndex)
                        && submissions == old(submissions) + [Submission(currentQuiz.value.quizId, answers, now,
                                                                         TimeLimitOr300(currentQuiz) - timeLeft)])
              && (!last ==> currentQuestionIndex == old(currentQuestionIndex) + 1 && submissions == old(submissions))
    {
      var q := currentQuiz.value.questions[currentQuestionIndex];
      var newAnswers := answers + [AnswerFor(q, selectedAnswer)];
      answers := newAnswers;
      selectedAnswer := "";
      if currentQuestionIndex + 1 >= |currentQuiz.value.questions| {
        CompleteQuiz(newAnswers, now);
      } else {
        currentQuestionIndex := currentQuestionIndex + 1;
      }
    }

    /** Time is up: the current question is submitted as unanswered after
        the recorded answers. The `answers` state itself is not updated. */
    method HandleTimeUp(now: int)
      requires Valid() && currentQuiz.Some? && currentQuiz.value.questions != []
      modifies this`submissions
      ensures var q := currentQuiz.value.questions[currentQuestionIndex];
              submissions == old(submissions) + [Submission(currentQuiz.value.quizId,
                                                            answers + [TimeUpAnswer(q, selectedAnswer)], now,
                                                            TimeLimitOr300(currentQuiz) - timeLeft)]
    {
      var q := currentQuiz.value.questions[currentQuestionIndex];
      CompleteQuiz(answers + [TimeUpAnswer(q, selectedAnswer)], now);
    }

    /** One second of the running countdown: from 1 or less it stops at 0
        and the time-up submission goes out; otherwise it drops by one. */
    method Tick(now: int)
      requires Valid() && quizStarted && !quizCompleted && timeLeft > 0
      requires timeLeft <= 1 ==> currentQuiz.Some? && currentQuiz.value.questions != []
      modifies this
      ensures unchanged(this`selectedSubjects, this`questionCount, this`currentQuiz, this`currentQuestionIndex,
                        this`selectedAnswer, this`answers, this`quizStarted, this`quizCompleted,
                        this`quizResults, this`isGenerating, this`generateRequests)
      ensures Valid()
      ensures timeLeft >= 0
      ensures old(timeLeft) <= 1 ==>
                timeLeft == 0
                && submissions == old(submissions)
                     + [Submission(currentQuiz.value.quizId,
                                   answers + [TimeUpAnswer(currentQuiz.value.questions[currentQuestionIndex], selectedAnswer)],
                                   now, TimeLimitOr300(currentQuiz) - old(timeLeft))]
      ensures old(timeLeft) > 1 ==> timeLeft == old(timeLeft) - 1 && submissions == old(submissions)
    {
      if timeLeft <= 1 {
        HandleTimeUp(now);
        timeLeft := 0;
      } else {
        timeLeft := timeLeft - 1;
      }
    }

    /** The submission response: the results are shown and the quiz is
        over. */
    method OnQuizSubmitted(results: QuizSummary)
      modifies this
      ensures quizResults == Some(results) && !quizStarted && quizCompleted
      ensures unchanged(this`selectedSubjects, this`questionCount, this`currentQuiz, this`currentQuestionIndex,
                        this`selectedAnswer, this`answers, this`timeLeft, this`isGenerating,
                        this`generateRequests, this`submissions)
    {
      quizResults := Some(results);
      quizStarted := false;
      quizCompleted := true;
    }

    /** `resetQuiz`: every field it names returns to its initial value; the
        question count and the generating flag are not among them. */
    method ResetQuiz()
      modifies this
      ensures Valid()
      ensures currentQuiz.None? && !quizStarted && !quizCompleted && currentQuestionIndex == 0
      ensures selectedAnswer == "" && answers == [] && quizResults.None? && timeLeft == 0
      ensures selectedSubjects == []
      ensures unchanged(this`questionCount, this`isGenerating, this`generateRequests, this`submissions)
    {
      currentQuiz := None;
      quizStarted := false;
      quizCompleted := false;
      currentQuestionIndex := 0;
      selectedAnswer := "";
      answers := [];
      quizResults := None;
      timeLeft := 0;
      selectedSubjects := [];
    }
  }
}
