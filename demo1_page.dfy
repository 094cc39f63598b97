/** JGS.Demo1Page as an object whose handlers update its fields in place.  Each
    method ends in the state the matching function of Demo1Model gives for the
    state it started in, and keeps the page invariant Demo1Model.Valid. */
module JGS {
  import opened Demo1Model

  class Demo1Page {
    /** Whether the platform is IE<=8 (no float support), fixed at construction. */
    const isIE8: bool

    var isRangeSelectorActive: bool
    /** Mouse-down handlers installed on the range-selector elements. */
    var mouseDownHandlers: nat
    /** Mouse-up handlers armed on the mouse-up element. */
    var mouseUpHandlers: nat
    var detailStartDateTm: int
    var detailEndDateTm: int
    var graph: Option<Chart>
    /** Chart objects constructed so far. */
    var chartsCreated: nat
    var spinner: SpinnerState
    /** Every loadData call issued so far, oldest first. */
    var requests: seq<LoadRequest>

    /** The page's fields as one value. */
    function State(): PageState
      reads this
    {
      PageState(isRangeSelectorActive, mouseDownHandlers, mouseUpHandlers,
                detailStartDateTm, detailEndDateTm, graph, chartsCreated, spinner, requests)
    }

    predicate Valid()
      reads this
    {
      Demo1Model.Valid(State())
    }

    /** The detail fields start at 0; nothing reads them before a handler sets them. */
    constructor (ie8: bool)
      ensures isIE8 == ie8
      ensures State() == InitialState()
      ensures Valid()
    {
      isIE8 := ie8;
      isRangeSelectorActive := false;
      mouseDownHandlers, mouseUpHandlers := 0, 0;
      detailStartDateTm, detailEndDateTm := 0, 0;
      graph := None;
      chartsCreated := 0;
      spinner := NoSpinner;
      requests := [];
    }

    /** init, with the clock reading `now` and the date library's instant two
        calendar years before the default range end. */
    method Init(now: int, rangeStartMs: int)
      requires Valid()
      modifies this
      ensures Valid()
      ensures State() == InitStep(old(State()), now, rangeStartMs)
      ensures var w := InitialWindows(now, rangeStartMs);
        requests == old(requests) + [LoadRequest(Some(w.overview), w.detail.start, w.detail.end)]
      ensures spinner == Created(true)
    {
      ShowSpinner(true);
      var windows := InitialWindows(now, rangeStartMs);
      requests := requests + [LoadRequest(Some(windows.overview), windows.detail.start, windows.detail.end)];
    }

    /** _setupRangeMouseHandling: safe to call again, it leaves one handler. */
    method SetupRangeMouseHandling()
      requires Valid()
      modifies this
      ensures Valid()
      ensures State() == SetupRangeMouseHandlingStep(old(State()))
      ensures graph.Some? ==> mouseDownHandlers == 1
    {
      if graph.Some? {
        mouseDownHandlers := 0;
        mouseDownHandlers := mouseDownHandlers + 1;
      }
    }

    /** The installed mouse-down handler of the range selector. */
    method OnRangeMouseDown()
      requires Valid()
      modifies this
      ensures Valid()
      ensures State() == RangeMouseDownStep(old(State()))
      ensures old(mouseDownHandlers) > 0 ==> isRangeSelectorActive && mouseUpHandlers == 1
      ensures requests == old(requests)
    {
      if mouseDownHandlers > 0 {
        isRangeSelectorActive := true;
        mouseUpHandlers := 0;
        mouseUpHandlers := mouseUpHandlers + 1;
      }
    }

    /** The armed single-shot mouse-up handler; `xAxisRange` is what the chart
        reports as its x-axis range at release. */
    method OnWindowMouseUp(xAxisRange: Window)
      requires Valid()
      modifies this
      ensures Valid()
      ensures State() == WindowMouseUpStep(old(State()), xAxisRange)
      ensures old(mouseUpHandlers) > 0 ==>
        && mouseUpHandlers == 0 && !isRangeSelectorActive
        && requests == old(requests) + [DetailRequest(xAxisRange.start, xAxisRange.end)]
      ensures old(mouseUpHandlers) == 0 ==> State() == old(State())
    {
      if mouseUpHandlers > 0 {
        mouseUpHandlers := 0;
        isRangeSelectorActive := false;
        detailStartDateTm := xAxisRange.start;
        detailEndDateTm := xAxisRange.end;
        LoadNewDetailData();
      }
    }

    /** _loadNewDetailData. */
    method LoadNewDetailData()
      requires Valid()
      modifies this
      ensures Valid()
      ensures State() == LoadNewDetailDataStep(old(State()))
      ensures requests == old(requests) + [DetailRequest(detailStartDateTm, detailEndDateTm)]
      ensures spinner == Created(true)
    {
      ShowSpinner(true);
      requests := requests + [DetailRequest(detailStartDateTm, detailEndDateTm)];
    }

    /** _onNewGraphData: the provider's callback for arrived data. */
    method OnNewGraphData(graphData: GraphData)
      requires Valid()
      modifies this
      ensures Valid()
      ensures State() == OnNewGraphDataStep(old(State()), graphData)
      ensures !IsSpinning(spinner)
    {
      DrawDygraph(graphData);
      ShowSpinner(false);
    }

    /** drawDygraph: construct the chart the first time, update it afterwards. */
    method DrawDygraph(graphData: GraphData)
      requires Valid()
      modifies this
      ensures Valid()
      ensures State() == DrawDygraphStep(old(State()), graphData)
      ensures old(graph).None? ==> mouseDownHandlers == 1 && chartsCreated == old(chartsCreated) + 1
      ensures old(graph).Some? ==> mouseDownHandlers == old(mouseDownHandlers) && chartsCreated == old(chartsCreated)
    {
      var window := Window(graphData.detailStartDateTm, graphData.detailEndDateTm);
      if graph.None? {
        graph := Some(Chart(graphData.dyData, window));
        chartsCreated := chartsCreated + 1;
        SetupRangeMouseHandling();
      } else {
        graph := Some(Chart(graphData.dyData, window));
      }
    }

    /** _onDyZoomCallback; `isZoomedX` is the chart's answer to isZoomed('x'). */
    method OnDyZoomCallback(minDate: int, maxDate: int, isZoomedX: bool)
      requires Valid()
      modifies this
      ensures Valid()
      ensures State() == DyZoomStep(old(State()), isIE8, minDate, maxDate, isZoomedX)
      ensures isRangeSelectorActive == old(isRangeSelectorActive)
    {
      if graph.None? {
        return;
      }
      detailStartDateTm := minDate;
      detailEndDateTm := maxDate;
      if !isZoomedX {
        mouseUpHandlers := 0;
        LoadNewDetailData();
        return;
      }
      if isIE8 {
        LoadNewDetailData();
        return;
      }
      var doDataLoad := !isRangeSelectorActive;
      if doDataLoad {
        LoadNewDetailData();
      }
    }

    /** showSpinner(show); only the spinner's state is modelled. */
    method ShowSpinner(show: bool)
      requires Valid()
      modifies this
      ensures Valid()
      ensures State() == old(State()).(spinner := ShowSpinnerStep(old(spinner), show))
      ensures IsSpinning(spinner) == show
    {
      if show {
        if spinner.NoSpinner? {
          spinner := Created(true);
        } else if !spinner.isSpinning {
          spinner := Created(true);
        }
      } else if spinner.Created? {
        spinner := Created(false);
      }
    }
  }

  /** A fresh page on a platform other than IE<=8: init, the initial data,
      then a drag of the range selector with two interim zoom callbacks and a
      release.  The log holds the startup load and one load for the window at
      release, nothing for the interim callbacks. */
  method StartupThenDrag(now: int, rangeStartMs: int, data: GraphData,
                         first: Window, second: Window, release: Window)
    returns (log: seq<LoadRequest>)
    ensures var w := InitialWindows(now, rangeStartMs);
      log == [LoadRequest(Some(w.overview), w.detail.start, w.detail.end),
              DetailRequest(release.start, release.end)]
  {
    var page := new Demo1Page(false);
    page.Init(now, rangeStartMs);
    page.OnNewGraphData(data);
    page.OnRangeMouseDown();
    page.OnDyZoomCallback(first.start, first.end, true);
    page.OnDyZoomCallback(second.start, second.end, true);
    page.OnWindowMouseUp(release);
    log := page.requests;
  }

  /** As above, but the chart reports a zoom reset during the drag: the reset
      loads its window at once and the release loads nothing more, while the
      range selector is left marked active. */
  method StartupThenResetMidDrag(now: int, rangeStartMs: int, data: GraphData,
                                 reset: Window, release: Window)
    returns (log: seq<LoadRequest>, stillActive: bool)
    ensures var w := InitialWindows(now, rangeStartMs);
      log == [LoadRequest(Some(w.overview), w.detail.start, w.detail.end),
              DetailRequest(reset.start, reset.end)]
    ensures stillActive
  {
    var page := new Demo1Page(false);
    page.Init(now, rangeStartMs);
    page.OnNewGraphData(data);
    page.OnRangeMouseDown();
    page.OnDyZoomCallback(reset.start, reset.end, false);
    page.OnWindowMouseUp(release);
    log := page.requests;
    stillActive := page.isRangeSelectorActive;
  }
}
