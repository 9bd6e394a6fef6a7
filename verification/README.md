# Language-course generator: application controller

A Dafny model of the controller of a client-side web application that turns an
uploaded JSON file or a free-text prompt into a language course (theory,
dialogues, quiz, flashcards) by calling a remote generation service, and then
shows the course in a viewer.

The controller is the `App` component. It holds three state cells:
`courseData` (a course or null), `isLoading` and `error` (a string or null).
Its handlers write these cells:

- the two submit handlers, for a file and for a prompt;
- the load-course handler, which shows an already built course;
- the reset handler.

`renderContent` then picks one of four screens from the cells: loading, error,
viewer or creation.

- `course_types.dfy` (module `CourseTypes`): the course records, as plain datatypes.
- `app_controller.dfy` (module `AppController`): the state value `AppState`; the events; the
  transition function `Step` and its iteration `Run` over a sequence of events; the screen
  selector `Render`; and the class `App`. `App` has the three cells as fields, and its
  methods make the handlers' setter writes in the handlers' order. Each method is proved
  against `Step`.
- `controller_properties.dfy` (module `ControllerProperties`): what the handlers guarantee,
  for single events and for arbitrary sequences of events.

Each asynchronous submit handler is split at its `await` into two events. `StartSubmit`
covers the writes before the service call. `Complete(outcome)` covers the writes of the
`try`/`catch`/`finally`. The outcome is a parameter: the service either resolved with a
course, or threw a value. A thrown value is either an `Error` instance with a message or
something else. No completion is tied to the submit that caused it, because the handlers
keep no request token. So any interleaving of starts, completions, loads and resets can be
expressed, and `Run` gives its result.

`if (error)` uses JavaScript truthiness, so an empty error string is falsy. The model
writes this as `Truthy`. A course object is always truthy, so `if (courseData)` means "not
null".

The handlers themselves do not guard against overlapping calls, and the model lets every
handler run in every state. What that allows:

- The handlers do not guard against a second submit before the first has answered. Two
  overlapping submits, where the first succeeds after the second has failed, leave both a
  course and an error stored. When the message is non-empty the error screen is then shown; an
  empty message is falsy, so the viewer is shown (`ErrorAndCourseBothStored`).
  `ReachableIff` shows that the states the handlers can reach, with every completion answering
  an earlier start, are exactly those in which loading implies that nothing is stored.
- The handlers keep no request token, so a result arriving after a reset still writes its
  course or error (`StaleCompletionAfterReset`).
- The fallback message is used only when the thrown value is not an `Error`. An `Error` with an
  empty message stores `""`, which is falsy, so the creation screen is shown
  (`UninterruptedRun`).

The screens of this component offer fewer events than that. The loading screen offers none
(App.tsx:63-71). Only the creation screen is given the submit and load handlers (App.tsx:95).
Only the error screen's button (App.tsx:81) and the viewer (App.tsx:92) are given the reset
handler. When every event comes from the screen shown at that moment, at most one call is ever
awaiting, and a course and an error are never stored together (`ScreenDrivenExactlyOne`).

## Model

| member | source | states |
|---|---|---|
| `AppController.Render` | App.tsx:62-95 | Loading exactly when loading; otherwise Error exactly when the error is a non-empty string, carrying that string; otherwise Viewer exactly when a course is stored, carrying that course; otherwise Creation |
| `AppController.Step` | App.tsx:13-60 | one event's writes: a start sets loading and clears both results; a completion stores the course or the failure message and stops loading; a load stores the course with loading off and no error; a reset restores the initial cells |
| `AppController.App.constructor` | App.tsx:9-11 | the cells start as no course, not loading, no error |
| `AppController.App.StartSubmit` | App.tsx:13-16 | sets loading and clears both error and course, whatever the request |
| `AppController.App.Complete` | App.tsx:17-28 | always stops loading; on success stores the course and leaves the error; on failure stores the thrown message, or the fixed fallback for a non-`Error` throw, and leaves the course |
| `AppController.App.LoadCourse` | App.tsx:49-53 | stores the given course, with loading off and no error |
| `AppController.App.Reset` | App.tsx:56-60 | returns to the initial state from any state |
| `ControllerProperties.StartShowsLoading` | App.tsx:31-34 | starting either kind of submit, from any state, gives the same state (loading, nothing stored), which shows the loading screen |
| `ControllerProperties.CompleteWrites` | App.tsx:35-46 | a completion stops loading; success keeps the previous error; failure keeps the previous course and stores the message, or exactly "An unknown error occurred." |
| `ControllerProperties.UninterruptedRun` | App.tsx:13-29 | after any history, a start followed by its completion ends with loading off and exactly one of course and error stored; success shows the viewer with that course; failure shows the error screen unless the message is empty; a non-`Error` throw shows the fallback |
| `ControllerProperties.ResetForgetsHistory` | App.tsx:56-60 | after any sequence of events, a reset gives the initial state and the creation screen |
| `ControllerProperties.ResetIdempotent` | App.tsx:56-60 | resetting twice is resetting once, and both give the initial state |
| `ControllerProperties.LoadForgetsHistory` | App.tsx:49-53 | after any sequence of events, loading a course gives that course with nothing loading and no error, which shows the viewer with that course |
| `ControllerProperties.LoadResetLoad` | App.tsx:49-60 | load, reset, load ends in the same state as a single load |
| `ControllerProperties.StaleCompletionAfterReset` | App.tsx:13-60 | a completion that arrives after a reset still writes its result, as if it had arrived on the idle screen; a successful one brings the viewer back |
| `ControllerProperties.EarlyCompletionEndsLoading` | App.tsx:31-47 | with two submits in flight, the first completion stops loading and leaves the loading screen |
| `ControllerProperties.ErrorAndCourseBothStored` | App.tsx:13-29 | two overlapping submits, each completion answering an earlier start, where the first succeeds after the second has failed, end with both a course and the error stored; a non-empty error then selects the error screen, an empty one the viewer |
| `ControllerProperties.StepPreservesInv` | App.tsx:13-60 | every event keeps the invariant "while loading, no course and no error are stored" |
| `ControllerProperties.RunPreservesInv` | App.tsx:13-60 | every sequence of events keeps that invariant |
| `ControllerProperties.ReachableIff` | App.tsx:9-60 | the states the handlers can reach from the initial cells, with every completion answering an earlier start, are exactly those satisfying the invariant |
| `ControllerProperties.LoadingMeansNothingStored` | App.tsx:62-72 | in a reachable state, the loading screen means no course and no error are stored |
| `ControllerProperties.Offered` | App.tsx:62-95 | the loading screen offers no handler; only the creation screen offers submit and load; only the error screen's button and the viewer offer reset; a completion needs an awaiting call |
| `ControllerProperties.ScreenDrivenKeepsInv` | App.tsx:62-95 | when each event is offered by the screen shown at that moment, every run keeps this: at most one call awaiting, loading exactly while one is, nothing stored while loading, never both a course and an error |
| `ControllerProperties.ScreenDrivenExactlyOne` | App.tsx:62-95 | a run from the initial cells in which each event is offered by the current screen answers only awaiting calls, has at most one call awaiting, and never stores a course and an error together |

## Left out

- The markup of the screens and the footer, and the spinner, creation-screen and
  course-viewer components. These are rendering only; the model keeps only which screen
  is selected and the string or course it shows.
- The two generation functions of the service module. That module is not part of this
  model, and it calls a remote model. What they return or throw is the `Outcome`
  parameter of `Complete`. The request's content is kept only as a value of `Request`.
- React mechanics: `useState`, `useCallback`, batching of setter calls and the scheduling
  of asynchronous continuations. Each handler segment is an atomic sequence of field
  writes, and the final state is the same.
- Schema rules the course types do not enforce: the answer index being within the
  options, and speakers being listed participants. No code here checks them. The answer
  index, a JavaScript number, is modelled as an integer; fractional and NaN values are not.
- `WordInfo`: the controller does not use it.
- Which screen calls which handler is kept only in `Offered`. `Step` and `Run` let every handler
  run in every state, including a second submit or a reset while loading. In this component,
  submit and load are offered only by the creation screen (App.tsx:95), and reset only by the
  error screen's button (App.tsx:81) and the viewer (App.tsx:92). The creation-screen
  component is not part of this model, so whether it can call a handler after it has been
  replaced by another screen is not captured.
