/** The application controller: the three state cells of the `App` component,
    the handlers that write them and the selector that picks the screen.

    Each asynchronous submit handler is split at its `await` into two events:
    `SubmitStarted`, the writes before the generation service is called, and
    `SubmitCompleted`, the writes of the `try`/`catch`/`finally` once the
    service has answered. What the service answers is a parameter (`Outcome`),
    and nothing ties a completion to the submit that caused it, just as in the
    handlers. */
module AppController {
  import opened CourseTypes

  /** The message shown when the thrown value is not an `Error` instance. */
  const UnknownError: string := "An unknown error occurred."

  /** The controller's state: the three `useState` cells. */
  datatype AppState = AppState(courseData: Option<CourseData>, isLoading: bool, error: Option<string>)

  /** The initial values of the three cells. */
  const Init: AppState := AppState(None, false, None)

  /** What was submitted: a file's text (sent to the structured-input
      generator) or a free-text prompt (sent to the prompt generator). */
  datatype Request = FileContent(content: string) | ChatPrompt(prompt: string)

  /** How the generation call settled: it resolved with a course, or it threw
      a value, which either is an `Error` instance carrying a message or is not. */
  datatype Outcome = Resolved(course: CourseData) | Rejected(isErrorInstance: bool, message: string)

  /** The inputs the controller reacts to. */
  datatype Event =
    | SubmitStarted(request: Request)
    | SubmitCompleted(outcome: Outcome)
    | CourseLoaded(course: CourseData)
    | ResetRequested

  /** The four screens `renderContent` can select. */
  datatype Screen = Loading | Failed(message: string) | Viewer(course: CourseData) | Creation

  /** JavaScript truthiness of a `string | null`: null and "" are falsy. */
  predicate Truthy(error: Option<string>)
  {
    error.Some? && error.value != ""
  }

  /** The string the `catch` block stores for a thrown value. */
  function FailureMessage(isErrorInstance: bool, message: string): string
  {
    if isErrorInstance then message else UnknownError
  }

  /** The effect of one event on the state, writing the cells in the order the
      handlers call the setters. The request does not influence the state. */
  function Step(s: AppState, e: Event): AppState
  {
    match e
    case SubmitStarted(_) =>
      s.(isLoading := true).(error := None).(courseData := None)
    case SubmitCompleted(Resolved(data)) =>
      s.(courseData := Some(data)).(isLoading := false)
    case SubmitCompleted(Rejected(isErrorInstance, message)) =>
      s.(error := Some(FailureMessage(isErrorInstance, message))).(isLoading := false)
    case CourseLoaded(data) =>
      s.(isLoading := false).(error := None).(courseData := Some(data))
    case ResetRequested =>
      s.(courseData := None).(error := None).(isLoading := false)
  }

  /** The state after a sequence of events, in order. */
  function Run(s: AppState, events: seq<Event>): AppState
    decreases |events|
  {
    if events == [] then s else Run(Step(s, events[0]), events[1..])
  }

  /** `renderContent`: Loading while loading, else the error screen when the
      error is truthy, else the viewer when there is a course, else the
      creation screen. */
  function Render(s: AppState): (screen: Screen)
    ensures screen == Loading <==> s.isLoading
    ensures screen.Failed? <==> !s.isLoading && Truthy(s.error)
    ensures screen.Failed? ==> s.error == Some(screen.message) && screen.message != ""
    ensures screen.Viewer? <==> !s.isLoading && !Truthy(s.error) && s.courseData.Some?
    ensures screen.Viewer? ==> s.courseData == Some(screen.course)
    ensures screen == Creation <==> !s.isLoading && !Truthy(s.error) && s.courseData == None
  {
    if s.isLoading then Loading
    else if Truthy(s.error) then Failed(s.error.value)
    else if s.courseData.Some? then Viewer(s.courseData.value)
    else Creation
  }

  /** The `App` component's state cells, updated in place by its handlers. */
  class App {
    var courseData: Option<CourseData>
    var isLoading: bool
    var error: Option<string>

    /** The current values of the three cells. */
    function State(): AppState
      reads this
    {
      AppState(courseData, isLoading, error)
    }

    constructor ()
      ensures State() == Init
    {
      courseData := None;
      isLoading := false;
      error := None;
    }

    /** The part of `handleFileSubmit` and `handleChatSubmit` before the
        `await`; the two are the same but for the service the request goes to. */
    method StartSubmit(request: Request)
      modifies this
      ensures isLoading && error == None && courseData == None
      ensures State() == Step(old(State()), SubmitStarted(request))
    {
      isLoading := true;
      error := None;
      courseData := None;
    }

    /** The part of the submit handlers after the `await`: store the course,
        or the failure message, then (`finally`) stop loading. */
    method Complete(outcome: Outcome)
      modifies this
      ensures !isLoading
      ensures outcome.Resolved? ==> courseData == Some(outcome.course) && error == old(error)
      ensures outcome.Rejected? ==>
        error == Some(FailureMessage(outcome.isErrorInstance, outcome.message)) && courseData == old(courseData)
      ensures State() == Step(old(State()), SubmitCompleted(outcome))
    {
      match outcome {
        case Resolved(data) =>
          courseData := Some(data);
        case Rejected(isErrorInstance, message) =>
          if isErrorInstance {
            error := Some(message);
          } else {
            error := Some(UnknownError);
          }
      }
      isLoading := false;
    }

    /** `handleLoadCourse`: show an already built course. */
    method LoadCourse(data: CourseData)
      modifies this
      ensures !isLoading && error == None && courseData == Some(data)
      ensures State() == Step(old(State()), CourseLoaded(data))
    {
      isLoading := false;
      error := None;
      courseData := Some(data);
    }

    /** `handleReset`: back to the initial, idle state. */
    method Reset()
      modifies this
      ensures State() == Init
      ensures State() == Step(old(State()), ResetRequested)
    {
      courseData := None;
      error := None;
      isLoading := false;
    }
  }
}
