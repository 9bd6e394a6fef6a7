/** What the controller's handlers and screen selector guarantee, alone and
    over arbitrary sequences of events, including the interleavings that arise
    because a completion is not matched to the submit that caused it. */
module ControllerProperties {
  import opened CourseTypes
  import opened AppController

  /** While loading, neither a course nor an error is stored. Every event that
      writes a course or an error also stops loading, so this holds in every
      reachable state. */
  ghost predicate Inv(s: AppState)
  {
    s.isLoading ==> s.courseData == None && s.error == None
  }

  /** The number of generation calls awaiting an answer after `e`, when
      `pending` were awaiting before it. */
  function InFlight(pending: nat, e: Event): nat
  {
    match e
    case SubmitStarted(_) => pending + 1
    case SubmitCompleted(_) => if pending > 0 then pending - 1 else 0
    case _ => pending
  }

  /** The number of calls awaiting an answer after all of `events`. */
  function InFlightAfter(pending: nat, events: seq<Event>): nat
    decreases |events|
  {
    if events == [] then pending else InFlightAfter(InFlight(pending, events[0]), events[1..])
  }

  /** Every completion answers a call that is still awaiting: a handler only
      resumes after its own `await`. */
  predicate Matched(pending: nat, events: seq<Event>)
    decreases |events|
  {
    events == [] ||
    ((events[0].SubmitCompleted? ==> pending > 0) && Matched(InFlight(pending, events[0]), events[1..]))
  }

  /** The states that the handlers can reach from the initial cells, with every
      completion answering an earlier start. */
  ghost predicate Reachable(s: AppState)
  {
    exists events :: Matched(0, events) && Run(Init, events) == s
  }

  /** Starting a submit, of either kind and from any state, clears both
      results and shows the loading screen. */
  lemma StartShowsLoading(s: AppState, request: Request)
    ensures Step(s, SubmitStarted(request)) == AppState(None, true, None)
    ensures Render(Step(s, SubmitStarted(request))) == Loading
  {
  }

  /** A completion always stops loading; a course replaces the stored course
      and leaves the error as it was; a failure stores the thrown message, or
      the fixed fallback when the thrown value is not an `Error`, and leaves
      the course as it was. */
  lemma CompleteWrites(s: AppState, outcome: Outcome)
    ensures !Step(s, SubmitCompleted(outcome)).isLoading
    ensures outcome.Resolved? ==>
      Step(s, SubmitCompleted(outcome)).courseData == Some(outcome.course) &&
      Step(s, SubmitCompleted(outcome)).error == s.error
    ensures outcome.Rejected? && outcome.isErrorInstance ==>
      Step(s, SubmitCompleted(outcome)).error == Some(outcome.message) &&
      Step(s, SubmitCompleted(outcome)).courseData == s.courseData
    ensures outcome.Rejected? && !outcome.isErrorInstance ==>
      Step(s, SubmitCompleted(outcome)).error == Some("An unknown error occurred.") &&
      Step(s, SubmitCompleted(outcome)).courseData == s.courseData
  {
  }

  /** Running `a` then `b` is running their concatenation. */
  lemma {:induction false} RunAppend(s: AppState, a: seq<Event>, b: seq<Event>)
    ensures Run(s, a + b) == Run(Run(s, a), b)
    decreases |a|
  {
    if a == [] {
      assert a + b == b;
    } else {
      assert (a + b)[0] == a[0];
      assert (a + b)[1..] == a[1..] + b;
      RunAppend(Step(s, a[0]), a[1..], b);
    }
  }

  /** Running a single event is one step. */
  lemma RunOne(s: AppState, e: Event)
    ensures Run(s, [e]) == Step(s, e)
  {
  }

  /** A submit followed directly by its completion, after any history, ends
      not loading with exactly one of course and error stored: the course and
      the viewer on success, the failure message on failure. A failure shows
      the error screen unless its message is empty, which shows the creation
      screen; the fallback message is never empty. */
  lemma UninterruptedRun(s: AppState, history: seq<Event>, request: Request, outcome: Outcome)
    ensures var t := Run(s, history + [SubmitStarted(request), SubmitCompleted(outcome)]);
      && !t.isLoading
      && (t.courseData.Some? <==> t.error.None?)
      && (outcome.Resolved? ==>
            t.courseData == Some(outcome.course) && t.error == None && Render(t) == Viewer(outcome.course))
      && (outcome.Rejected? ==>
            var m := FailureMessage(outcome.isErrorInstance, outcome.message);
            t.courseData == None && t.error == Some(m) &&
            Render(t) == (if m == "" then Creation else Failed(m)))
      && (outcome.Rejected? && !outcome.isErrorInstance ==> Render(t) == Failed(UnknownError))
  {
    var mid := Run(s, history);
    RunAppend(s, history, [SubmitStarted(request), SubmitCompleted(outcome)]);
    RunAppend(mid, [SubmitStarted(request)], [SubmitCompleted(outcome)]);
    RunOne(mid, SubmitStarted(request));
    RunOne(Step(mid, SubmitStarted(request)), SubmitCompleted(outcome));
  }

  /** Whatever happened before, a reset ends in the initial state, which
      shows the creation screen. */
  lemma ResetForgetsHistory(s: AppState, history: seq<Event>)
    ensures Run(s, history + [ResetRequested]) == Init
    ensures Render(Run(s, history + [ResetRequested])) == Creation
  {
    RunAppend(s, history, [ResetRequested]);
    RunOne(Run(s, history), ResetRequested);
  }

  /** Whatever happened before, loading a course shows exactly that course,
      with nothing loading and no error. */
  lemma LoadForgetsHistory(s: AppState, history: seq<Event>, data: CourseData)
    ensures Run(s, history + [CourseLoaded(data)]) == AppState(Some(data), false, None)
    ensures Render(Run(s, history + [CourseLoaded(data)])) == Viewer(data)
  {
    RunAppend(s, history, [CourseLoaded(data)]);
    RunOne(Run(s, history), CourseLoaded(data));
  }

  /** Reset is idempotent. */
  lemma ResetIdempotent(s: AppState)
    ensures Step(Step(s, ResetRequested), ResetRequested) == Step(s, ResetRequested) == Init
  {
  }

  /** Loading a course, resetting and loading it again ends where loading it
      once does. */
  lemma LoadResetLoad(s: AppState, data: CourseData)
    ensures Run(s, [CourseLoaded(data), ResetRequested, CourseLoaded(data)]) == Step(s, CourseLoaded(data))
  {
    LoadForgetsHistory(s, [CourseLoaded(data), ResetRequested], data);
    assert [CourseLoaded(data), ResetRequested] + [CourseLoaded(data)]
        == [CourseLoaded(data), ResetRequested, CourseLoaded(data)];
  }

  /** A completion that arrives after a reset is not discarded: the state is
      as if the result had arrived on the idle screen, so a successful result
      brings the viewer back. */
  lemma StaleCompletionAfterReset(s: AppState, request: Request, outcome: Outcome)
    ensures Run(s, [SubmitStarted(request), ResetRequested, SubmitCompleted(outcome)])
         == Step(Init, SubmitCompleted(outcome))
    ensures outcome.Resolved? ==>
      Render(Run(s, [SubmitStarted(request), ResetRequested, SubmitCompleted(outcome)])) == Viewer(outcome.course)
  {
    var events := [SubmitStarted(request), ResetRequested, SubmitCompleted(outcome)];
    assert events == [SubmitStarted(request), ResetRequested] + [SubmitCompleted(outcome)];
    RunAppend(s, [SubmitStarted(request), ResetRequested], [SubmitCompleted(outcome)]);
    ResetForgetsHistory(s, [SubmitStarted(request)]);
    assert [SubmitStarted(request)] + [ResetRequested] == [SubmitStarted(request), ResetRequested];
    RunOne(Init, SubmitCompleted(outcome));
  }

  /** With two submits in flight, the first completion stops loading although
      the second request has not answered. */
  lemma EarlyCompletionEndsLoading(s: AppState, first: Request, second: Request, outcome: Outcome)
    ensures !Run(s, [SubmitStarted(first), SubmitStarted(second), SubmitCompleted(outcome)]).isLoading
    ensures Render(Run(s, [SubmitStarted(first), SubmitStarted(second), SubmitCompleted(outcome)])) != Loading
  {
    var events := [SubmitStarted(first), SubmitStarted(second), SubmitCompleted(outcome)];
    assert events[1..][1..] == [SubmitCompleted(outcome)];
    RunOne(Step(Step(s, events[0]), events[1]), SubmitCompleted(outcome));
  }

  /** Two overlapping submits whose first answer is a success arriving after
      the second has failed leave both a course and an error stored. A
      non-empty message then selects the error screen; an empty one is falsy,
      so the viewer is shown. */
  lemma ErrorAndCourseBothStored(first: Request, second: Request, message: string, data: CourseData)
    ensures Matched(0, [SubmitStarted(first), SubmitStarted(second),
                        SubmitCompleted(Rejected(true, message)), SubmitCompleted(Resolved(data))])
    ensures Run(Init, [SubmitStarted(first), SubmitStarted(second),
                       SubmitCompleted(Rejected(true, message)), SubmitCompleted(Resolved(data))])
         == AppState(Some(data), false, Some(message))
    ensures message != "" ==>
      Render(Run(Init, [SubmitStarted(first), SubmitStarted(second),
                        SubmitCompleted(Rejected(true, message)), SubmitCompleted(Resolved(data))]))
      == Failed(message)
    ensures message == "" ==>
      Render(Run(Init, [SubmitStarted(first), SubmitStarted(second),
                        SubmitCompleted(Rejected(true, message)), SubmitCompleted(Resolved(data))]))
      == Viewer(data)
  {
    var events := [SubmitStarted(first), SubmitStarted(second),
                   SubmitCompleted(Rejected(true, message)), SubmitCompleted(Resolved(data))];
    var s1 := Step(Init, events[0]);
    var s2 := Step(s1, events[1]);
    var s3 := Step(s2, events[2]);
    assert Run(Init, events) == Run(s1, events[1..]);
    assert Run(s1, events[1..]) == Run(s2, events[2..]);
    assert Run(s2, events[2..]) == Run(s3, [events[3]]) by {
      assert events[2..][1..] == [events[3]];
    }
    RunOne(s3, events[3]);
    assert Matched(1, [events[3]]);
    assert Matched(2, events[2..]);
  }

  /** Every step keeps the invariant. */
  lemma StepPreservesInv(s: AppState, e: Event)
    requires Inv(s)
    ensures Inv(Step(s, e))
  {
  }

  /** Every sequence of events keeps the invariant. */
  lemma {:induction false} RunPreservesInv(s: AppState, events: seq<Event>)
    requires Inv(s)
    ensures Inv(Run(s, events))
    decreases |events|
  {
    if events != [] {
      StepPreservesInv(s, events[0]);
      RunPreservesInv(Step(s, events[0]), events[1..]);
    }
  }

  /** The reachable states are exactly those that satisfy the invariant. In
      particular a state holding both a course and an error is reachable when
      the handlers are called in an overlapping order, and only a loading
      state with something stored is not. */
  lemma ReachableIff(s: AppState)
    ensures Reachable(s) <==> Inv(s)
  {
    if Reachable(s) {
      var events :| Matched(0, events) && Run(Init, events) == s;
      RunPreservesInv(Init, events);
    }
    if Inv(s) {
      var trace := WitnessEvents(s);
      assert Run(Init, trace) == s;
    }
  }

  /** Events, each completion answering an earlier start, that lead from the
      initial state to `s`, for a state that keeps the invariant. */
  ghost function WitnessEvents(s: AppState): (events: seq<Event>)
    requires Inv(s)
    ensures Matched(0, events) && Run(Init, events) == s
  {
    var r := FileContent("");
    if s.isLoading then
      assert Run(Init, [SubmitStarted(r)]) == s;
      [SubmitStarted(r)]
    else match (s.courseData, s.error)
      case (None, None) => []
      case (Some(data), None) =>
        assert Run(Init, [CourseLoaded(data)]) == s;
        [CourseLoaded(data)]
      case (None, Some(message)) =>
        assert [SubmitStarted(r), SubmitCompleted(Rejected(true, message))][1..]
            == [SubmitCompleted(Rejected(true, message))];
        RunOne(Step(Init, SubmitStarted(r)), SubmitCompleted(Rejected(true, message)));
        assert Matched(1, [SubmitCompleted(Rejected(true, message))]);
        [SubmitStarted(r), SubmitCompleted(Rejected(true, message))]
      case (Some(data), Some(message)) =>
        ErrorAndCourseBothStored(r, r, message, data);
        [SubmitStarted(r), SubmitStarted(r),
         SubmitCompleted(Rejected(true, message)), SubmitCompleted(Resolved(data))]
  }

  /** In a reachable state the loading screen means nothing is stored. */
  lemma LoadingMeansNothingStored(s: AppState)
    requires Reachable(s)
    ensures Render(s) == Loading ==> s == AppState(None, true, None)
  {
    ReachableIff(s);
  }

  /** Whether the screen selected for `s` offers event `e`, with `pending`
      calls awaiting an answer. The creation screen is the only one handed the
      submit and load handlers; the error screen's button and the viewer are
      the only ones handed the reset handler; a completion needs a call that
      is awaiting. */
  predicate Offered(s: AppState, pending: nat, e: Event)
  {
    match e
    case SubmitStarted(_) => Render(s) == Creation
    case CourseLoaded(_) => Render(s) == Creation
    case ResetRequested => Render(s).Failed? || Render(s).Viewer?
    case SubmitCompleted(_) => pending > 0
  }

  /** A sequence of events each offered by the screen shown when it happens. */
  predicate ScreenDriven(s: AppState, pending: nat, events: seq<Event>)
    decreases |events|
  {
    events == [] ||
    (Offered(s, pending, events[0]) &&
     ScreenDriven(Step(s, events[0]), InFlight(pending, events[0]), events[1..]))
  }

  /** The invariant of screen-driven runs: at most one call awaiting, loading
      exactly while one is, nothing stored while loading, and never both a
      course and an error. */
  ghost predicate ScreenInv(s: AppState, pending: nat)
  {
    Inv(s) && pending <= 1 && (s.isLoading <==> pending == 1) &&
    !(s.courseData.Some? && s.error.Some?)
  }

  /** Every offered event keeps the screen-driven invariant. */
  lemma ScreenStepKeepsInv(s: AppState, pending: nat, e: Event)
    requires ScreenInv(s, pending) && Offered(s, pending, e)
    ensures ScreenInv(Step(s, e), InFlight(pending, e))
  {
  }

  /** Every screen-driven sequence of events keeps the invariant. */
  lemma {:induction false} ScreenDrivenKeepsInv(s: AppState, pending: nat, events: seq<Event>)
    requires ScreenInv(s, pending) && ScreenDriven(s, pending, events)
    ensures ScreenInv(Run(s, events), InFlightAfter(pending, events))
    decreases |events|
  {
    if events != [] {
      ScreenStepKeepsInv(s, pending, events[0]);
      ScreenDrivenKeepsInv(Step(s, events[0]), InFlight(pending, events[0]), events[1..]);
    }
  }

  /** When every handler is called only from the screen that offers it, the
      runs are well matched, at most one call is ever awaiting, and the state
      is always exactly one of loading, an error, a course or idle: a course
      and an error are never stored together. */
  lemma ScreenDrivenExactlyOne(events: seq<Event>)
    requires ScreenDriven(Init, 0, events)
    ensures Matched(0, events)
    ensures InFlightAfter(0, events) <= 1
    ensures var t := Run(Init, events);
      (t.isLoading ==> t.courseData == None && t.error == None) &&
      !(t.courseData.Some? && t.error.Some?)
  {
    ScreenDrivenKeepsInv(Init, 0, events);
    ScreenDrivenIsMatched(Init, 0, events);
  }

  /** A screen-driven sequence answers only awaiting calls. */
  lemma {:induction false} ScreenDrivenIsMatched(s: AppState, pending: nat, events: seq<Event>)
    requires ScreenDriven(s, pending, events)
    ensures Matched(pending, events)
    decreases |events|
  {
    if events != [] {
      ScreenDrivenIsMatched(Step(s, events[0]), InFlight(pending, events[0]), events[1..]);
    }
  }
}
