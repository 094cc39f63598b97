/** The state of one JGS.Demo1Page and the effect of each of its handlers, as pure
    functions from the state before the handler to the state after it.  The class
    in module JGS runs the same handlers by updating fields, and each of its
    methods is proved to end in the state these functions give.

    Instants are integer milliseconds since the epoch.  Every call of
    GraphDataProvider.loadData is recorded by appending a LoadRequest to the
    state's request log. */
module Demo1Model {

  const HOUR_MS: int := 60 * 60 * 1000
  const DAY_MS: int := 24 * HOUR_MS

  datatype Option<T> = None | Some(value: T)

  /** A time window [start, end]; the page never checks start <= end. */
  datatype Window = Window(start: int, end: int)

  /** One call of loadData: the overview window, or None when the overview is
      kept and only the detail slice is refreshed, and the detail window. */
  datatype LoadRequest = LoadRequest(overview: Option<Window>, detailStart: int, detailEnd: int)

  /** What the data provider delivers: the series rows and the detail window
      they were loaded for. */
  datatype GraphData = GraphData(dyData: seq<seq<int>>, detailStartDateTm: int, detailEndDateTm: int)

  /** The chart object: the rows it shows and the date window it was given. */
  datatype Chart = Chart(file: seq<seq<int>>, dateWindow: Window)

  /** `spinner` null, or created and then spinning or stopped. */
  datatype SpinnerState = NoSpinner | Created(isSpinning: bool)

  /** The fields of the page.  The two handler counts say how many mouse-down
      handlers are installed on the range selector and how many mouse-up
      handlers are armed on the mouse-up element; `chartsCreated` counts the
      chart objects constructed (the `new Dygraph` calls). */
  datatype PageState = PageState(
    isRangeSelectorActive: bool,
    mouseDownHandlers: nat,
    mouseUpHandlers: nat,
    detailStartDateTm: int,
    detailEndDateTm: int,
    graph: Option<Chart>,
    chartsCreated: nat,
    spinner: SpinnerState,
    requests: seq<LoadRequest>)

  /** The request that refreshes only the detail slice for [start, end]. */
  function DetailRequest(start: int, end: int): LoadRequest
  {
    LoadRequest(None, start, end)
  }

  /** The state right after the constructor: nothing loaded, nothing armed. */
  function InitialState(): (s: PageState)
    ensures Valid(s) && s.requests == [] && s.graph.None? && s.spinner.NoSpinner?
  {
    PageState(false, 0, 0, 0, 0, None, 0, NoSpinner, [])
  }

  /** What every reachable state satisfies: at most one handler of each kind,
      handlers only once the chart (and so the range selector) exists, a
      mouse-up handler only while the range selector is marked active, and one
      chart constructed once there is a chart, none before. */
  predicate Valid(s: PageState)
  {
    && s.mouseDownHandlers <= 1
    && s.mouseUpHandlers <= 1
    && (s.mouseDownHandlers > 0 ==> s.graph.Some?)
    && (s.isRangeSelectorActive ==> s.graph.Some?)
    && (s.mouseUpHandlers > 0 ==> s.isRangeSelectorActive)
    && s.chartsCreated == (if s.graph.Some? then 1 else 0)
  }

  // ---------------------------------------------------------------------------
  // showSpinner

  /** showSpinner(show): creates and spins a spinner when there is none,
      re-spins a stopped one, stops an existing one, and otherwise does nothing. */
  function ShowSpinnerStep(sp: SpinnerState, show: bool): (r: SpinnerState)
    ensures show ==> r == Created(true)
    ensures !show ==> (r.Created? <==> sp.Created?) && !(r.Created? && r.isSpinning)
    ensures !show && sp.NoSpinner? ==> r == sp
  {
    if show then
      match sp
      case NoSpinner => Created(true)
      case Created(spinning) => if !spinning then Created(true) else sp
    else
      match sp
      case NoSpinner => sp
      case Created(_) => Created(false)
  }

  /** Whether the spinner is spinning; a spinner never created is not. */
  function IsSpinning(sp: SpinnerState): bool
  {
    sp.Created? && sp.isSpinning
  }

  // ---------------------------------------------------------------------------
  // init and _loadNewDetailData

  /** The top of the hour after `now`: `now` truncated to the hour, plus one hour. */
  function DefaultRangeEnd(now: int): (r: int)
    ensures r % HOUR_MS == 0
    ensures now < r <= now + HOUR_MS
  {
    (now - now % HOUR_MS) + HOUR_MS
  }

  /** The windows init asks for: the overview [rangeStart, rangeEnd] and the
      detail window of 180 days ending 90 days before rangeEnd.  `rangeStartMs`
      is the date library's "two calendar years before rangeEnd". */
  datatype DefaultWindows = DefaultWindows(overview: Window, detail: Window)

  function InitialWindows(now: int, rangeStartMs: int): (r: DefaultWindows)
    ensures r.overview == Window(rangeStartMs, DefaultRangeEnd(now))
    ensures r.detail.end == r.overview.end - 90 * DAY_MS
    ensures r.detail.start == r.detail.end - 180 * DAY_MS
    ensures r.detail.start <= r.detail.end <= r.overview.end
    ensures r.overview.end % HOUR_MS == 0 && r.detail.end % HOUR_MS == 0 && r.detail.start % HOUR_MS == 0
  {
    var rangeEnd := DefaultRangeEnd(now);
    var detailEnd := rangeEnd - 90 * DAY_MS;
    var detailStart := detailEnd - 180 * DAY_MS;
    DefaultWindows(Window(rangeStartMs, rangeEnd), Window(detailStart, detailEnd))
  }

  /** init: show the spinner and issue the one load that carries both windows.
      The page's own detail fields are not touched. */
  function InitStep(s: PageState, now: int, rangeStartMs: int): (r: PageState)
    ensures r.spinner == Created(true)
    ensures var w := InitialWindows(now, rangeStartMs);
      r.requests == s.requests + [LoadRequest(Some(w.overview), w.detail.start, w.detail.end)]
    ensures r.(spinner := s.spinner, requests := s.requests) == s
  {
    var w := InitialWindows(now, rangeStartMs);
    var shown := s.(spinner := ShowSpinnerStep(s.spinner, true));
    shown.(requests := shown.requests + [LoadRequest(Some(w.overview), w.detail.start, w.detail.end)])
  }

  /** _loadNewDetailData: show the spinner and issue one load for the current
      detail window, keeping the overview. */
  function LoadNewDetailDataStep(s: PageState): (r: PageState)
    ensures r.spinner == Created(true)
    ensures r.requests == s.requests + [DetailRequest(s.detailStartDateTm, s.detailEndDateTm)]
    ensures r.(spinner := s.spinner, requests := s.requests) == s
  {
    var shown := s.(spinner := ShowSpinnerStep(s.spinner, true));
    shown.(requests := shown.requests + [DetailRequest(shown.detailStartDateTm, shown.detailEndDateTm)])
  }

  // ---------------------------------------------------------------------------
  // _setupRangeMouseHandling and its two handlers

  /** _setupRangeMouseHandling: remove any installed mouse-down handler, then
      install one.  The range-selector elements are found in the chart, so with
      no chart there is nothing to install on. */
  function SetupRangeMouseHandlingStep(s: PageState): (r: PageState)
    ensures s.graph.Some? ==> r.mouseDownHandlers == 1
    ensures s.graph.None? ==> r == s
    ensures r.(mouseDownHandlers := s.mouseDownHandlers) == s
  {
    if s.graph.None? then s
    else
      var removed := s.(mouseDownHandlers := 0);
      removed.(mouseDownHandlers := removed.mouseDownHandlers + 1)
  }

  /** A mouse-down (or touch-start) on the range selector.  With a handler
      installed, it marks the range selector active, removes any armed mouse-up
      handler and arms a new one; with none, nothing happens. */
  function RangeMouseDownStep(s: PageState): (r: PageState)
    ensures s.mouseDownHandlers == 0 ==> r == s
    ensures s.mouseDownHandlers > 0 ==> r.isRangeSelectorActive && r.mouseUpHandlers == 1
    ensures r.requests == s.requests
    ensures r.(isRangeSelectorActive := s.isRangeSelectorActive, mouseUpHandlers := s.mouseUpHandlers) == s
  {
    if s.mouseDownHandlers == 0 then s
    else
      var active := s.(isRangeSelectorActive := true);
      var cancelled := active.(mouseUpHandlers := 0);
      cancelled.(mouseUpHandlers := cancelled.mouseUpHandlers + 1)
  }

  /** A mouse-up (or touch-end) on the mouse-up element.  The armed handler runs
      once: it disarms itself, marks the range selector inactive, takes the
      chart's x-axis range at release time as the detail window and loads it. */
  function WindowMouseUpStep(s: PageState, xAxisRange: Window): (r: PageState)
    ensures s.mouseUpHandlers == 0 ==> r == s
    ensures s.mouseUpHandlers > 0 ==>
      && r.mouseUpHandlers == 0
      && !r.isRangeSelectorActive
      && r.detailStartDateTm == xAxisRange.start && r.detailEndDateTm == xAxisRange.end
      && r.requests == s.requests + [DetailRequest(xAxisRange.start, xAxisRange.end)]
      && r.spinner == Created(true)
      && r.mouseDownHandlers == s.mouseDownHandlers && r.graph == s.graph
      && r.chartsCreated == s.chartsCreated
  {
    if s.mouseUpHandlers == 0 then s
    else
      var disarmed := s.(mouseUpHandlers := 0);
      var inactive := disarmed.(isRangeSelectorActive := false);
      var ranged := inactive.(detailStartDateTm := xAxisRange.start, detailEndDateTm := xAxisRange.end);
      LoadNewDetailDataStep(ranged)
  }

  // ---------------------------------------------------------------------------
  // _onNewGraphData and drawDygraph

  /** drawDygraph: with no chart yet, construct one with the data's detail window
      and set up the range mouse handling; otherwise only give the existing chart
      the new rows and window, constructing nothing and installing nothing.  (The
      source's `recreateDygraph` is always false, so it takes no part.) */
  function DrawDygraphStep(s: PageState, data: GraphData): (r: PageState)
    ensures r.graph == Some(Chart(data.dyData, Window(data.detailStartDateTm, data.detailEndDateTm)))
    ensures s.graph.None? ==> r.mouseDownHandlers == 1 && r.chartsCreated == s.chartsCreated + 1
    ensures s.graph.Some? ==> r.mouseDownHandlers == s.mouseDownHandlers && r.chartsCreated == s.chartsCreated
    ensures r.(graph := s.graph, mouseDownHandlers := s.mouseDownHandlers, chartsCreated := s.chartsCreated) == s
  {
    var chart := Chart(data.dyData, Window(data.detailStartDateTm, data.detailEndDateTm));
    if s.graph.None? then
      var created := s.(graph := Some(chart), chartsCreated := s.chartsCreated + 1);
      SetupRangeMouseHandlingStep(created)
    else
      s.(graph := Some(chart))
  }

  /** _onNewGraphData: draw the data, then stop the spinner. */
  function OnNewGraphDataStep(s: PageState, data: GraphData): (r: PageState)
    ensures r.graph == Some(Chart(data.dyData, Window(data.detailStartDateTm, data.detailEndDateTm)))
    ensures s.graph.None? ==> r.mouseDownHandlers == 1 && r.chartsCreated == s.chartsCreated + 1
    ensures s.graph.Some? ==> r.mouseDownHandlers == s.mouseDownHandlers && r.chartsCreated == s.chartsCreated
    ensures !IsSpinning(r.spinner) && (r.spinner.Created? <==> s.spinner.Created?)
    ensures r.(graph := s.graph, mouseDownHandlers := s.mouseDownHandlers,
               chartsCreated := s.chartsCreated, spinner := s.spinner) == s
  {
    var drawn := DrawDygraphStep(s, data);
    drawn.(spinner := ShowSpinnerStep(drawn.spinner, false))
  }

  // ---------------------------------------------------------------------------
  // _onDyZoomCallback

  /** Whether the zoom callback issues a load, when a chart exists: always on a
      zoom reset and on the IE<=8 platform, otherwise only while the range
      selector is not being dragged. */
  predicate ZoomLoads(ie8: bool, isRangeSelectorActive: bool, isZoomedX: bool)
  {
    !isZoomedX || ie8 || !isRangeSelectorActive
  }

  /** The chart's zoom callback with [minDate, maxDate] and the chart's answer
      to isZoomed('x').  With no chart it does nothing.  Otherwise it records the
      window; on a reset it disarms any mouse-up handler and loads at once; on the
      IE<=8 platform it loads; elsewhere it loads only when the range selector is
      not active.  It never changes isRangeSelectorActive. */
  function DyZoomStep(s: PageState, ie8: bool, minDate: int, maxDate: int, isZoomedX: bool): (r: PageState)
    ensures s.graph.None? ==> r == s
    ensures s.graph.Some? ==> r.detailStartDateTm == minDate && r.detailEndDateTm == maxDate
    ensures r.isRangeSelectorActive == s.isRangeSelectorActive
    ensures r.graph == s.graph && r.mouseDownHandlers == s.mouseDownHandlers
    ensures r.chartsCreated == s.chartsCreated
    ensures s.graph.Some? && !isZoomedX ==> r.mouseUpHandlers == 0
    ensures isZoomedX ==> r.mouseUpHandlers == s.mouseUpHandlers
    ensures s.graph.Some? && ZoomLoads(ie8, s.isRangeSelectorActive, isZoomedX) ==>
      r.requests == s.requests + [DetailRequest(minDate, maxDate)] && r.spinner == Created(true)
    ensures !ZoomLoads(ie8, s.isRangeSelectorActive, isZoomedX) ==>
      r.requests == s.requests && r.spinner == s.spinner
  {
    if s.graph.None? then s
    else
      var ranged := s.(detailStartDateTm := minDate, detailEndDateTm := maxDate);
      if !isZoomedX then
        LoadNewDetailDataStep(ranged.(mouseUpHandlers := 0))
      else if ie8 then
        LoadNewDetailDataStep(ranged)
      else if !ranged.isRangeSelectorActive then
        LoadNewDetailDataStep(ranged)
      else
        ranged
  }
}
