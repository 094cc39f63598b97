# Gesture-to-reload coordination of JGS.Demo1Page

This project models the page controller `JGS.Demo1Page` of the dygraphs dynamic
zooming example. It covers the part that decides when to ask the data provider for
new detail data, and for which time window. The page watches three kinds of event:

- a mouse-down on the chart's range selector;
- the mouse-up that ends a range-selector drag;
- the chart's zoom callback.

It also reacts to the arrival of new data from the provider, and it issues the
first load in `init`. The model proves that a range-selector drag loads exactly
once, on release, and that a zoom reset loads at once and cancels the pending
release. It also proves that data arrival constructs the chart once and only
updates it afterwards. For the spinner, it proves three things: every request is
issued with the spinner spinning, the spinner keeps spinning until data arrives,
and data arrival stops it.

The model is in three files.

- `demo1_model.dfy` (module `Demo1Model`) holds the page's state as a value,
  `PageState`, and one pure function per handler. Each function maps the state
  before the handler to the state after it. Each call of `loadData` is recorded by
  appending a `LoadRequest` (overview window or `None`, detail start, detail end) to
  the state's request log. The invariant `Valid` holds in every reachable state:
  at most one handler of each kind, handlers only once the chart exists, an
  armed mouse-up handler only while the range selector is marked active, and
  exactly one chart object constructed once a chart exists.
- `demo1_scenarios.dfy` (module `Demo1Scenarios`) holds the events as a datatype,
  `Run` over a sequence of events, and the lemmas about such sequences.
- `demo1_page.dfy` (module `JGS`) holds the class `Demo1Page`. Its fields are
  those of the page, and its methods update them in place and call one another as
  the JavaScript does. Each method is proved to end in the state the pure function
  gives, and to keep `Valid`. Two client methods drive a fresh page through the
  startup-then-drag and the reset-mid-drag scenarios.

How the model represents the page:

- Instants are integer milliseconds since the epoch. The chart reports
  `xAxisRange()` and the zoom callback's `minDate`/`maxDate` as JavaScript numbers,
  which can be fractional. The page wraps them in `new Date(...)`, which truncates
  them to whole milliseconds. The integers supplied with the events are those
  truncated values.
- Listener registrations are counts of installed handlers, so removing the old
  handler before adding a new one shows up as "the count stays at most one".
- The range-selector elements exist only once the chart exists. So setting up the
  mouse handling with no chart installs nothing.
- The page also counts the chart objects it constructs (`new Dygraph`), so that
  creating the chart can be told apart from updating it.
- The chart's answers are supplied with the events: `xAxisRange()` with the
  mouse-up, `isZoomed('x')` with the zoom callback.
- The IE<=8 test (`$.support.cssFloat == false`) is a boolean fixed at
  construction.
- `spinner` and `spinnerIsSpinning` are one value: `NoSpinner` or
  `Created(isSpinning)`.

A zoom reset during a range-selector drag removes the mouse-up handler but leaves
`isRangeSelectorActive` true (JGS.Demo1Page.js lines 176-180). The model keeps this
behaviour. Two lemmas state what follows from it. The flag stays set until the
next mouse-down on the range selector (`ActiveWithoutHandlerPersists`). Until then,
on platforms other than IE<=8, a drag-to-zoom on the detail pane loads nothing
(`ResetMidDragSuppressesLaterZoom`).

## Model

| member | source | states |
|---|---|---|
| `Demo1Model.InitialState` | j/JGS.Demo1Page.js:10-17 | A new page has an empty request log, no chart, no spinner, and the range selector inactive; that state satisfies the page invariant |
| `Demo1Model.ShowSpinnerStep` | j/JGS.Demo1Page.js:200-235 | showSpinner(true) always ends with a spinning spinner and is a no-op on one already spinning; showSpinner(false) stops an existing spinner and leaves "no spinner" alone |
| `Demo1Model.DefaultRangeEnd` | j/JGS.Demo1Page.js:28-30 | The default range end is hour-aligned and lies in (now, now + 1 hour], so an instant exactly on the hour gets the following hour |
| `Demo1Model.InitialWindows` | j/JGS.Demo1Page.js:27-37 | The overview ends at the default range end; the detail window ends 90 days before it and starts 180 days before its own end; detailStart <= detailEnd <= rangeEnd, all hour-aligned |
| `Demo1Model.InitStep` | j/JGS.Demo1Page.js:24-41 | init starts the spinner and appends exactly one load carrying both the overview and the detail window; nothing else changes, including the page's detail fields |
| `Demo1Model.LoadNewDetailDataStep` | j/JGS.Demo1Page.js:97-100 | Appends exactly one detail-only load (null overview) for the current detail window and leaves the spinner spinning; nothing else changes |
| `Demo1Model.SetupRangeMouseHandlingStep` | j/JGS.Demo1Page.js:63-69 | After setup with a chart, exactly one mouse-down handler is installed, however many calls came before; without a chart nothing changes |
| `Demo1Model.RangeMouseDownStep` | j/JGS.Demo1Page.js:69-76 | With a handler installed, a mouse-down marks the range selector active and leaves exactly one mouse-up handler armed; no load; without a handler nothing happens |
| `Demo1Model.WindowMouseUpStep` | j/JGS.Demo1Page.js:76-89 | The armed handler runs once: it disarms itself, clears the active flag, sets the detail window to the release-time x-axis range and appends exactly one detail-only load for it, spinner spinning; with no handler armed nothing happens |
| `Demo1Model.DrawDygraphStep` | j/JGS.Demo1Page.js:133-161 | The chart afterwards shows the data with its detail window; with no chart before, one chart is constructed and the range handling is installed; with a chart before, nothing is constructed or installed; nothing else changes |
| `Demo1Model.OnNewGraphDataStep` | j/JGS.Demo1Page.js:102-108 | New data is drawn as above and the spinner ends not spinning; everything else, including the page's detail fields, the flag, the armed handler and the log, is unchanged |
| `Demo1Model.DyZoomStep` | j/JGS.Demo1Page.js:165-198 | No effect without a chart; otherwise records [minDate, maxDate] as the detail window; a reset disarms the mouse-up handler and loads; a zoomed callback loads on IE<=8 always and elsewhere exactly when the range selector is inactive; the active flag never changes |
| `Demo1Scenarios.StepPreservesValid` | j/JGS.Demo1Page.js:63-80 | Every event keeps the page invariant (at most one handler of each kind, handlers only with a chart, armed mouse-up only while active, one chart constructed once there is a chart) |
| `Demo1Scenarios.StepLoadsAtMostOnce` | j/JGS.Demo1Page.js:97-100 | One event appends at most one request, never rewrites earlier ones, and every request is issued with the spinner spinning |
| `Demo1Scenarios.ShowSpinnerIdempotent` | j/JGS.Demo1Page.js:200-235 | Either showSpinner call made twice equals one call, and afterwards the spinner spins exactly when the last call asked for it |
| `Demo1Scenarios.RunPreservesValid` | j/JGS.Demo1Page.js:63-80 | Every state reachable by any event sequence satisfies the page invariant, so at most one handler of each kind and at most one chart object ever constructed |
| `Demo1Scenarios.RunExtendsLog` | j/JGS.Demo1Page.js:97-100 | Over any event sequence the request log only grows, by at most one request per event, keeping the earlier requests as a prefix |
| `Demo1Scenarios.OnlyInitLoadsOverview` | j/JGS.Demo1Page.js:99 | Every request issued by an event other than init has a null overview |
| `Demo1Scenarios.ZoomedWhileActiveLoadsNothing` | j/JGS.Demo1Page.js:191-196 | On a platform other than IE<=8, while the range selector is active, any number of zoomed callbacks load nothing and keep the flag, the armed handler and the chart |
| `Demo1Scenarios.ZoomedOnIe8LoadsEach` | j/JGS.Demo1Page.js:183-189 | On IE<=8 each zoomed callback appends the detail load for its own window, in order, and the flag and the armed handler are unchanged |
| `Demo1Scenarios.DragLoadsOnceOnRelease` | j/JGS.Demo1Page.js:69-88 | Mouse-down, any number of zoomed callbacks, mouse-up: zero loads during the drag, then exactly one detail load for the release-time range; the flag is cleared and no handler is left armed |
| `Demo1Scenarios.ResetMidDragLoadsOnce` | j/JGS.Demo1Page.js:174-180 | A reset in the middle of such a drag loads its own window once, and the later mouse-up adds no second load because its handler was removed; the range selector stays marked active |
| `Demo1Scenarios.ActiveWithoutHandlerPersists` | j/JGS.Demo1Page.js:72-80 | Once the range selector is active with no mouse-up handler armed, it stays so across any events without a range-selector mouse-down |
| `Demo1Scenarios.ResetMidDragSuppressesLaterZoom` | j/JGS.Demo1Page.js:194-196 | After a drag containing a reset, on platforms other than IE<=8, a zoomed callback on the detail pane loads nothing, after any events in between that contain no range-selector mouse-down |
| `Demo1Scenarios.SpinnerSpinsUntilData` | j/JGS.Demo1Page.js:97-108 | Once the spinner spins, it keeps spinning across any events until new data arrives |
| `Demo1Scenarios.DataArrivalCreatesOnce` | j/JGS.Demo1Page.js:133-161 | The first data constructs the chart with its window and installs one mouse-down handler; the second only updates the chart, constructing no second one, with one handler still installed and no load; the spinner is stopped each time |
| `Demo1Scenarios.StartupLoadsDefaults` | j/JGS.Demo1Page.js:24-41 | From a new page, init issues exactly one load with the default overview and detail windows while spinning; after the initial data, the log is unchanged, the chart shows the data with its detail window, the handling is installed and the spinner is stopped |
| `Demo1Scenarios.RangeEndIsNextHour` | j/JGS.Demo1Page.js:28-30 | The default range end is the least hour-aligned instant strictly after now |
| `JGS.Demo1Page.constructor` | j/JGS.Demo1Page.js:10-17 | A new page is in the initial state with the platform flag fixed |
| `JGS.Demo1Page.Init` | j/JGS.Demo1Page.js:24-41 | The page ends in the state InitStep gives: one load with both windows appended, spinner spinning |
| `JGS.Demo1Page.SetupRangeMouseHandling` | j/JGS.Demo1Page.js:51-94 | Ends in the state SetupRangeMouseHandlingStep gives: one mouse-down handler once the chart exists |
| `JGS.Demo1Page.OnRangeMouseDown` | j/JGS.Demo1Page.js:69-76 | Ends in the state RangeMouseDownStep gives: active, exactly one mouse-up handler, log unchanged |
| `JGS.Demo1Page.OnWindowMouseUp` | j/JGS.Demo1Page.js:76-89 | Ends in the state WindowMouseUpStep gives: single-shot, one detail load for the release-time range |
| `JGS.Demo1Page.LoadNewDetailData` | j/JGS.Demo1Page.js:97-100 | Ends in the state LoadNewDetailDataStep gives: one detail-only load appended, spinner spinning |
| `JGS.Demo1Page.OnNewGraphData` | j/JGS.Demo1Page.js:102-108 | Ends in the state OnNewGraphDataStep gives: data drawn, spinner not spinning |
| `JGS.Demo1Page.DrawDygraph` | j/JGS.Demo1Page.js:110-163 | Ends in the state DrawDygraphStep gives: construct and install when there is no chart, otherwise update with no construction and no installation |
| `JGS.Demo1Page.OnDyZoomCallback` | j/JGS.Demo1Page.js:165-198 | Ends in the state DyZoomStep gives for the page's platform flag; the active flag is unchanged |
| `JGS.Demo1Page.ShowSpinner` | j/JGS.Demo1Page.js:200-235 | Ends in the state ShowSpinnerStep gives for the spinner, all else unchanged; spinning exactly when asked |
| `JGS.StartupThenDrag` | j/JGS.Demo1Page.js:69-99 | A fresh page run through init, data, mouse-down, two zoomed callbacks and mouse-up has logged exactly the startup load and one load for the release-time window |
| `JGS.StartupThenResetMidDrag` | j/JGS.Demo1Page.js:165-180 | A fresh page run through init, data, mouse-down, a reset and mouse-up has logged exactly the startup load and one load for the reset window, and the range selector is still marked active |

## Left out

- jQuery event binding: the namespaced `on`/`off` calls, the choice of `window` or `document.body` as the mouse-up element, and the CSS selectors of the range-selector elements. Each registration is a handler count. Touch events are the same handlers as mouse events.
- Dygraph construction and rendering options (labels, value range, custom bars, decimal digits, interaction model). The chart is reduced to the rows it shows and its date window.
- `GraphDataProvider`: loading is asynchronous I/O, and its code is not part of this model. `loadData` is an appended `LoadRequest`, and the arrival of data is an explicit event. The series name `"Series-A"` and the container-width argument are not recorded in the request.
- Overlapping in-flight loads and the order of their responses. The page does not fence them, so the model promises nothing about them.
- The spinner's visual options and the element it spins on. Only its state is kept.
- Demo1Model.InitialWindows: the range start passed to the overview is an input, the date library's instant two calendar years before the range end. Calendar arithmetic with leap years is not modelled, so the model does not state that the range start precedes the range end.
- The `recreateDygraph` test in drawDygraph: the variable is always false, so the chart is constructed only when none exists, and the model has no re-create branch.
- The wall clock: `now` is an input of init.
- `console.log` calls.
- The detail fields are undefined in the page until a handler sets them. The model starts them at 0, and no handler reads them before writing them.
