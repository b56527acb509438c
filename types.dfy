/** The record shapes shared by the whole application (types.ts). */
module Types {
  import opened Wrappers

  datatype QuizQuestion = QuizQuestion(
    id: string,
    question: string,
    options: seq<string>,
    correctAnswerIndex: int,
    explanation: string)

  datatype LessonPart = LessonPart(title: string, content: string, image: Option<string>)

  /** A catalogue entry; `xpReward` is the XP a perfect quiz earns. */
  datatype Level = Level(
    id: int,
    title: string,
    description: string,
    icon: string,
    color: string,
    lessons: seq<LessonPart>,
    quiz: seq<QuizQuestion>,
    xpReward: nat,
    isLocked: bool,
    isCompleted: bool)

  datatype UserState = UserState(
    xp: nat,
    score: nat,
    level: int,
    completedLevelIds: seq<int>,
    name: string,
    totalTimeSeconds: nat)

  datatype Role = User | Model

  datatype ChatMessage = ChatMessage(role: Role, text: string, timestamp: int)
}
