/** The StudentProfile document: the learner's preferences, the enumerations
    the schema validates, its defaults, the quiz counters and the shape of a
    quiz-history entry. The collection is unique on `userId`. */
module StudentProfileSchema {
  import opened Common

  datatype TeachingMedium = Sinhala | English | Tamil
  datatype Difficulty = Easy | Medium | Hard
  datatype Priority = LowPriority | MediumPriority | HighPriority
  datatype Chronotype = EarlyBird | NightOwl | Neither
  datatype Mood = Motivated | Neutral | Tired | Stressed | Excited
  datatype EnvironmentPreference = Quiet | BackgroundMusic | WhiteNoise
  datatype LearningStyle = Visual | Auditory | Kinesthetic | ReadingWriting

  /** The stored text of each mood. */
  function MoodName(m: Mood): string {
    match m
    case Motivated => "motivated"
    case Neutral => "neutral"
    case Tired => "tired"
    case Stressed => "stressed"
    case Excited => "excited"
  }

  /** The enum validator of `currentMood`: a text is accepted exactly when it
      is one of the five names. */
  function ParseMood(s: string): (r: Option<Mood>)
    ensures r.Some? <==> s in {"motivated", "neutral", "tired", "stressed", "excited"}
    ensures r.Some? ==> MoodName(r.value) == s
  {
    if s == "motivated" then Some(Motivated)
    else if s == "neutral" then Some(Neutral)
    else if s == "tired" then Some(Tired)
    else if s == "stressed" then Some(Stressed)
    else if s == "excited" then Some(Excited)
    else None
  }

  lemma ParseMoodName(m: Mood)
    ensures ParseMood(MoodName(m)) == Some(m)
  {
  }

  function DifficultyName(d: Difficulty): string {
    match d
    case Easy => "easy"
    case Medium => "medium"
    case Hard => "hard"
  }

  /** The enum validator shared by `subjects.difficulty` and
      `quizHistory.difficulty`. */
  function ParseDifficulty(s: string): (r: Option<Difficulty>)
    ensures r.Some? <==> s in {"easy", "medium", "hard"}
    ensures r.Some? ==> DifficultyName(r.value) == s
  {
    if s == "easy" then Some(Easy)
    else if s == "medium" then Some(Medium)
    else if s == "hard" then Some(Hard)
    else None
  }

  function PriorityName(p: Priority): string {
    match p
    case LowPriority => "low"
    case MediumPriority => "medium"
    case HighPriority => "high"
  }

  /** The enum validator of `subjects.priority`. */
  function ParsePriority(s: string): (r: Option<Priority>)
    ensures r.Some? <==> s in {"low", "medium", "high"}
    ensures r.Some? ==> PriorityName(r.value) == s
  {
    if s == "low" then Some(LowPriority)
    else if s == "medium" then Some(MediumPriority)
    else if s == "high" then Some(HighPriority)
    else None
  }

  /** One entry of `subjects`. */
  datatype SubjectEntry = SubjectEntry(
    name: string,
    difficulty: Difficulty,
    studyHoursPerWeek: int,
    priority: Priority)

  /** An entry of `subjects` with every field left to its default. */
  const DefaultSubjectEntry := SubjectEntry("English", Medium, 4, MediumPriority)

  /** One entry of `quizHistory`. */
  datatype QuizRecord = QuizRecord(
    quizId: string,
    subjects: seq<string>,
    score: int,
    totalQuestions: int,
    correctAnswers: int,
    pointsEarned: int,
    completedAt: int,
    timeTaken: int,
    difficulty: Difficulty)

  datatype StudentProfile = StudentProfile(
    id: ObjectId,
    userId: ObjectId,
    grade: string,
    medium: TeachingMedium,
    subjects: seq<SubjectEntry>,
    chronotype: Chronotype,
    energyLevel: int,
    studyBreakDuration: int,
    maxStudySessionLength: int,
    preferredStudyStartTime: string,
    preferredStudyEndTime: string,
    currentMood: Mood,
    studyEnvironmentPreference: EnvironmentPreference,
    learningStyle: LearningStyle,
    totalPoints: int,
    quizStreak: int,
    accuracyRate: int,
    quizHistory: seq<QuizRecord>)

  const MinEnergy := 1
  const MaxEnergy := 10

  /** What the schema's validators demand of a stored profile: a `userId`,
      a non-empty grade, an energy level in [1, 10] and a name on every
      subject entry (an empty string does not meet `required`). */
  predicate SchemaValid(p: StudentProfile) {
    p.userId != "" && p.grade != "" && MinEnergy <= p.energyLevel <= MaxEnergy
    && forall i :: 0 <= i < |p.subjects| ==> p.subjects[i].name != ""
  }

  /** What every record that `submitQuiz` appends satisfies. */
  predicate RecordWellFormed(r: QuizRecord) {
    0 < r.totalQuestions && 0 <= r.correctAnswers <= r.totalQuestions && 0 <= r.score <= 100
    && r.pointsEarned == 10 * r.correctAnswers
  }

  /** Every record of the history is well formed. */
  predicate HistoryWellFormed(history: seq<QuizRecord>) {
    forall i :: 0 <= i < |history| ==> RecordWellFormed(history[i])
  }

  /** The quiz statistics `submitQuiz` keeps: a well-formed history and an
      accuracy rate that is a percentage. */
  predicate StatsWellFormed(p: StudentProfile) {
    HistoryWellFormed(p.quizHistory) && 0 <= p.accuracyRate <= 100
  }

  predicate AllStatsWellFormed(profiles: map<ObjectId, StudentProfile>) {
    forall u :: u in profiles ==> StatsWellFormed(profiles[u])
  }

  /** `StudentProfile.create({ userId })`: every other field takes its
      declared default, including zeroed counters and an empty history. */
  function NewProfile(id: ObjectId, userId: ObjectId): (p: StudentProfile)
    ensures p.id == id && p.userId == userId
    ensures (userId != "") <==> SchemaValid(p)
    ensures p.grade == "Grade 11" && p.medium == English && p.chronotype == Neither
    ensures p.energyLevel == 5 && p.currentMood == Neutral
    ensures p.studyBreakDuration == 15 && p.maxStudySessionLength == 90
    ensures p.totalPoints == 0 && p.quizStreak == 0 && p.accuracyRate == 0
    ensures p.subjects == [] && p.quizHistory == []
    ensures StatsWellFormed(p)
  {
    StudentProfile(id, userId, "Grade 11", English, [], Neither, 5, 15, 90, "09:00", "17:00",
                   Neutral, Quiet, Visual, 0, 0, 0, [])
  }

  /** The StudentProfile collection. The unique index on `userId` makes it a
      map from user id to that user's one profile. */
  class ProfileCollection {
    var profiles: map<ObjectId, StudentProfile>

    ghost predicate Valid()
      reads this
    {
      forall u :: u in profiles ==> profiles[u].userId == u && SchemaValid(profiles[u])
    }

    /** Every stored profile has well-formed quiz statistics. The schema
        does not check them, so this holds of the documents the handlers
        write: the defaults of `create`, then `submitQuiz`'s updates. */
    ghost predicate StatsKept()
      reads this
    {
      AllStatsWellFormed(profiles)
    }

    constructor ()
      ensures Valid() && StatsKept() && profiles == map[]
    {
      profiles := map[];
    }

    /** `StudentProfile.findOne({ userId })`. */
    function FindByUser(userId: ObjectId): (r: Option<StudentProfile>)
      reads this
      requires Valid()
      ensures r.Some? <==> userId in profiles
      ensures r.Some? ==> r.value.userId == userId && SchemaValid(r.value)
      ensures r.Some? && StatsKept() ==> StatsWellFormed(r.value)
    {
      if userId in profiles then Some(profiles[userId]) else None
    }

    /** Inserting a document: refused by validation, or by the unique index
      when the user already has a profile. */
    method Insert(p: StudentProfile) returns (ok: bool)
      requires Valid()
      modifies this
      ensures Valid()
      ensures ok <==> SchemaValid(p) && p.userId !in old(profiles)
      ensures profiles == if ok then old(profiles)[p.userId := p] else old(profiles)
      ensures old(StatsKept()) && StatsWellFormed(p) ==> StatsKept()
    {
      ok := SchemaValid(p) && p.userId !in profiles;
      if ok {
        profiles := profiles[p.userId := p];
      }
    }
  }
}
