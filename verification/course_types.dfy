/** The course records produced by the generation service and shown by the
    viewer. They are plain values: nothing in the application changes a course
    after it has been produced, and the controller never looks inside one. */
module CourseTypes {

  /** A value that may be absent: `T | null` and optional fields `x?: T`. */
  datatype Option<+T> = None | Some(value: T)

  /** One spoken line of a dialogue. */
  datatype DialogueLine = DialogueLine(speaker: string, line: string)

  /** A dialogue between named participants. No rule ties a line's speaker to
      the participants list. */
  datatype Dialogue = Dialogue(title: string, participants: seq<string>, lines: seq<DialogueLine>)

  /** A multiple-choice question. No rule keeps correctAnswerIndex inside
      options; the field, a JavaScript number, is modelled as an integer. */
  datatype QuizQuestion = QuizQuestion(
    question: string,
    options: seq<string>,
    correctAnswerIndex: int,
    explanation: string)

  datatype Quiz = Quiz(title: string, questions: seq<QuizQuestion>)

  datatype Flashcard = Flashcard(front: string, back: string)

  datatype Theory = Theory(title: string, content: string)

  /** A whole generated course; the theory section is optional. */
  datatype CourseData = CourseData(
    title: string,
    language: string,
    theory: Option<Theory>,
    dialogues: seq<Dialogue>,
    quiz: Quiz,
    flashcards: seq<Flashcard>)
}
