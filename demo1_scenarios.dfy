/** Sequences of events delivered to one page, and what they do to its request
    log and flags: the drag that loads once on release, the zoom reset that
    cancels the pending release, the invariant every event keeps. */
module Demo1Scenarios {
  import opened Demo1Model

  /** The events the page reacts to.  The mouse-up carries the chart's x-axis
      range read at release; the zoom callback carries the chart's answer to
      isZoomed('x'); init carries the clock and the date library's range start. */
  datatype Event =
    | RangeMouseDown
    | WindowMouseUp(xAxisRange: Window)
    | DyZoom(minDate: int, maxDate: int, isZoomedX: bool)
    | NewGraphData(data: GraphData)
    | PageInit(now: int, rangeStartMs: int)

  function Step(ie8: bool, s: PageState, e: Event): PageState
  {
    match e
    case RangeMouseDown => RangeMouseDownStep(s)
    case WindowMouseUp(range) => WindowMouseUpStep(s, range)
    case DyZoom(minDate, maxDate, zoomed) => DyZoomStep(s, ie8, minDate, maxDate, zoomed)
    case NewGraphData(data) => OnNewGraphDataStep(s, data)
    case PageInit(now, rangeStartMs) => InitStep(s, now, rangeStartMs)
  }

  /** The state after delivering `es` in order, starting from `s`. */
  function Run(ie8: bool, s: PageState, es: seq<Event>): PageState
    decreases |es|
  {
    if es == [] then s else Run(ie8, Step(ie8, s, es[0]), es[1..])
  }

  /** Zoom callbacks in which the chart reports itself zoomed, as it does while
      the range selector is dragged. */
  predicate AllZoomedIn(zs: seq<Event>)
  {
    forall i :: 0 <= i < |zs| ==> zs[i].DyZoom? && zs[i].isZoomedX
  }

  predicate NoRangeMouseDown(es: seq<Event>)
  {
    forall i :: 0 <= i < |es| ==> !es[i].RangeMouseDown?
  }

  predicate NoPageInit(es: seq<Event>)
  {
    forall i :: 0 <= i < |es| ==> !es[i].PageInit?
  }

  // ---------------------------------------------------------------------------
  // One event

  /** Every event keeps the page invariant. */
  lemma StepPreservesValid(ie8: bool, s: PageState, e: Event)
    requires Valid(s)
    ensures Valid(Step(ie8, s, e))
  {
  }

  /** One event appends at most one request and never rewrites the log, and a
      request is always issued with the spinner spinning. */
  lemma StepLoadsAtMostOnce(ie8: bool, s: PageState, e: Event)
    ensures var r := Step(ie8, s, e);
      && (r.requests == s.requests || (|r.requests| == |s.requests| + 1 && r.requests[..|s.requests|] == s.requests))
      && (r.requests != s.requests ==> r.spinner == Created(true))
  {
  }

  /** Either call of showSpinner made twice equals one call, and afterwards the
      spinner is spinning exactly when the call asked for it. */
  lemma ShowSpinnerIdempotent(sp: SpinnerState, show: bool)
    ensures ShowSpinnerStep(ShowSpinnerStep(sp, show), show) == ShowSpinnerStep(sp, show)
    ensures IsSpinning(ShowSpinnerStep(sp, show)) == show
  {
  }

  // ---------------------------------------------------------------------------
  // Event sequences

  lemma {:induction false} RunAppend(ie8: bool, s: PageState, a: seq<Event>, b: seq<Event>)
    ensures Run(ie8, s, a + b) == Run(ie8, Run(ie8, s, a), b)
    decreases |a|
  {
    if a == [] {
      assert a + b == b;
    } else {
      assert (a + b)[1..] == a[1..] + b;
      RunAppend(ie8, Step(ie8, s, a[0]), a[1..], b);
    }
  }

  /** Every reachable state satisfies the invariant. */
  lemma {:induction false} RunPreservesValid(ie8: bool, s: PageState, es: seq<Event>)
    requires Valid(s)
    ensures Valid(Run(ie8, s, es))
    decreases |es|
  {
    if es != [] {
      StepPreservesValid(ie8, s, es[0]);
      RunPreservesValid(ie8, Step(ie8, s, es[0]), es[1..]);
    }
  }

  /** The request log only grows, and by at most one request per event. */
  lemma {:induction false} RunExtendsLog(ie8: bool, s: PageState, es: seq<Event>)
    ensures var r := Run(ie8, s, es);
      |s.requests| <= |r.requests| <= |s.requests| + |es| && r.requests[..|s.requests|] == s.requests
    decreases |es|
  {
    if es != [] {
      var t := Step(ie8, s, es[0]);
      StepLoadsAtMostOnce(ie8, s, es[0]);
      RunExtendsLog(ie8, t, es[1..]);
      var r := Run(ie8, t, es[1..]);
      assert r.requests[..|s.requests|] == r.requests[..|t.requests|][..|s.requests|];
    }
  }

  /** Only init asks for an overview: every request issued by any other event
      keeps the overview, so a run without init adds detail-only requests. */
  lemma {:induction false} OnlyInitLoadsOverview(ie8: bool, s: PageState, es: seq<Event>)
    requires NoPageInit(es)
    ensures var r := Run(ie8, s, es);
      |s.requests| <= |r.requests| &&
      forall k :: |s.requests| <= k < |r.requests| ==> r.requests[k].overview.None?
    decreases |es|
  {
    if es != [] {
      var t := Step(ie8, s, es[0]);
      StepLoadsAtMostOnce(ie8, s, es[0]);
      assert NoPageInit(es[1..]) by {
        forall i | 0 <= i < |es[1..]| ensures !es[1..][i].PageInit? {
          assert es[1..][i] == es[i + 1];
        }
      }
      assert !es[0].PageInit?;
      OnlyInitLoadsOverview(ie8, t, es[1..]);
      RunExtendsLog(ie8, t, es[1..]);
    }
  }

  /** While the range selector is active on a platform other than IE<=8, zoom
      callbacks that report a zoomed chart load nothing and leave the flag and
      the armed mouse-up handler as they were. */
  lemma {:induction false} ZoomedWhileActiveLoadsNothing(s: PageState, zs: seq<Event>)
    requires s.isRangeSelectorActive && s.graph.Some?
    requires AllZoomedIn(zs)
    ensures var r := Run(false, s, zs);
      && r.requests == s.requests
      && r.isRangeSelectorActive
      && r.mouseUpHandlers == s.mouseUpHandlers
      && r.mouseDownHandlers == s.mouseDownHandlers
      && r.graph == s.graph
    decreases |zs|
  {
    if zs != [] {
      assert zs[0].DyZoom? && zs[0].isZoomedX;
      var t := Step(false, s, zs[0]);
      assert AllZoomedIn(zs[1..]) by {
        forall i | 0 <= i < |zs[1..]| ensures zs[1..][i].DyZoom? && zs[1..][i].isZoomedX {
          assert zs[1..][i] == zs[i + 1];
        }
      }
      ZoomedWhileActiveLoadsNothing(t, zs[1..]);
    }
  }

  /** On the IE<=8 platform every one of those zoom callbacks loads its own
      window, in order. */
  lemma {:induction false} ZoomedOnIe8LoadsEach(s: PageState, zs: seq<Event>)
    requires s.graph.Some?
    requires AllZoomedIn(zs)
    ensures var r := Run(true, s, zs);
      && r.requests == s.requests + seq(|zs|, i requires 0 <= i < |zs| => DetailRequest(zs[i].minDate, zs[i].maxDate))
      && r.isRangeSelectorActive == s.isRangeSelectorActive
      && r.mouseUpHandlers == s.mouseUpHandlers
      && r.mouseDownHandlers == s.mouseDownHandlers
      && r.graph == s.graph
    decreases |zs|
  {
    if zs != [] {
      assert zs[0].DyZoom? && zs[0].isZoomedX;
      var t := Step(true, s, zs[0]);
      assert AllZoomedIn(zs[1..]) by {
        forall i | 0 <= i < |zs[1..]| ensures zs[1..][i].DyZoom? && zs[1..][i].isZoomedX {
          assert zs[1..][i] == zs[i + 1];
        }
      }
      ZoomedOnIe8LoadsEach(t, zs[1..]);
      var tail := zs[1..];
      assert t.requests == s.requests + [DetailRequest(zs[0].minDate, zs[0].maxDate)];
      assert seq(|zs|, i requires 0 <= i < |zs| => DetailRequest(zs[i].minDate, zs[i].maxDate))
          == [DetailRequest(zs[0].minDate, zs[0].maxDate)]
             + seq(|tail|, i requires 0 <= i < |tail| => DetailRequest(tail[i].minDate, tail[i].maxDate));
    }
  }

  /** A drag of the range selector: mouse-down, any number of zoomed callbacks,
      release.  Nothing is loaded during the drag and exactly one detail load,
      for the x-axis range at release, is issued on release; afterwards the range
      selector is inactive, no mouse-up handler is armed and the spinner spins. */
  lemma DragLoadsOnceOnRelease(s: PageState, zs: seq<Event>, release: Window)
    requires Valid(s) && s.mouseDownHandlers == 1
    requires AllZoomedIn(zs)
    ensures var down := Run(false, s, [RangeMouseDown] + zs);
      && down.requests == s.requests && down.isRangeSelectorActive && down.mouseUpHandlers == 1
      && down.graph == s.graph && down.mouseDownHandlers == 1
    ensures var r := Run(false, s, [RangeMouseDown] + zs + [WindowMouseUp(release)]);
      && r.requests == s.requests + [DetailRequest(release.start, release.end)]
      && !r.isRangeSelectorActive
      && r.mouseUpHandlers == 0
      && r.detailStartDateTm == release.start && r.detailEndDateTm == release.end
      && r.spinner == Created(true)
  {
    var t := Step(false, s, RangeMouseDown);
    assert Run(false, s, [RangeMouseDown]) == t;
    RunAppend(false, s, [RangeMouseDown], zs);
    ZoomedWhileActiveLoadsNothing(t, zs);
    RunAppend(false, s, [RangeMouseDown] + zs, [WindowMouseUp(release)]);
  }

  /** A zoom reset in the middle of a drag (non-IE<=8 platform): the reset loads
      its own window at once and removes the mouse-up handler, so the release
      loads nothing more.  The range selector stays marked active. */
  lemma ResetMidDragLoadsOnce(s: PageState, zs1: seq<Event>, minDate: int, maxDate: int,
                              zs2: seq<Event>, release: Window)
    requires Valid(s) && s.mouseDownHandlers == 1
    requires AllZoomedIn(zs1) && AllZoomedIn(zs2)
    ensures var r := Run(false, s, [RangeMouseDown] + zs1 + [DyZoom(minDate, maxDate, false)] + zs2 + [WindowMouseUp(release)]);
      && r.requests == s.requests + [DetailRequest(minDate, maxDate)]
      && r.isRangeSelectorActive
      && r.mouseUpHandlers == 0
  {
    var down := [RangeMouseDown] + zs1;
    var t := Run(false, s, down);
    DragLoadsOnceOnRelease(s, zs1, release);
    var u := Step(false, t, DyZoom(minDate, maxDate, false));
    assert Run(false, t, [DyZoom(minDate, maxDate, false)]) == u;
    RunAppend(false, s, down, [DyZoom(minDate, maxDate, false)]);
    ZoomedWhileActiveLoadsNothing(u, zs2);
    RunAppend(false, s, down + [DyZoom(minDate, maxDate, false)], zs2);
    var v := Run(false, u, zs2);
    assert Run(false, v, [WindowMouseUp(release)]) == v;
    RunAppend(false, s, down + [DyZoom(minDate, maxDate, false)] + zs2, [WindowMouseUp(release)]);
  }

  /** Once the range selector is marked active with no mouse-up handler armed
      (the state a mid-drag reset leaves), it stays so until the next mouse-down
      on the range selector: no later release clears it. */
  lemma {:induction false} ActiveWithoutHandlerPersists(ie8: bool, s: PageState, es: seq<Event>)
    requires s.isRangeSelectorActive && s.mouseUpHandlers == 0
    requires NoRangeMouseDown(es)
    ensures var r := Run(ie8, s, es); r.isRangeSelectorActive && r.mouseUpHandlers == 0
    decreases |es|
  {
    if es != [] {
      assert !es[0].RangeMouseDown?;
      assert NoRangeMouseDown(es[1..]) by {
        forall i | 0 <= i < |es[1..]| ensures !es[1..][i].RangeMouseDown? {
          assert es[1..][i] == es[i + 1];
        }
      }
      ActiveWithoutHandlerPersists(ie8, Step(ie8, s, es[0]), es[1..]);
    }
  }

  /** After a drag that contained a reset, on a platform other than IE<=8, a
      drag-to-zoom on the detail pane (a zoomed callback) loads nothing, however
      many events without a range-selector mouse-down came in between. */
  lemma ResetMidDragSuppressesLaterZoom(s: PageState, zs1: seq<Event>, minDate: int, maxDate: int,
                                        zs2: seq<Event>, release: Window, es: seq<Event>, lo: int, hi: int)
    requires Valid(s) && s.mouseDownHandlers == 1
    requires AllZoomedIn(zs1) && AllZoomedIn(zs2)
    requires NoRangeMouseDown(es)
    ensures var drag := [RangeMouseDown] + zs1 + [DyZoom(minDate, maxDate, false)] + zs2 + [WindowMouseUp(release)];
      var before := Run(false, s, drag + es);
      Run(false, before, [DyZoom(lo, hi, true)]).requests == before.requests
  {
    var drag := [RangeMouseDown] + zs1 + [DyZoom(minDate, maxDate, false)] + zs2 + [WindowMouseUp(release)];
    ResetMidDragLoadsOnce(s, zs1, minDate, maxDate, zs2, release);
    ActiveWithoutHandlerPersists(false, Run(false, s, drag), es);
    RunAppend(false, s, drag, es);
    var before := Run(false, s, drag + es);
    assert Run(false, before, [DyZoom(lo, hi, true)]) == Step(false, before, DyZoom(lo, hi, true));
  }

  predicate NoNewGraphData(es: seq<Event>)
  {
    forall i :: 0 <= i < |es| ==> !es[i].NewGraphData?
  }

  /** Once a request has been issued the spinner spins, and it keeps spinning
      across any events until data arrives. */
  lemma {:induction false} SpinnerSpinsUntilData(ie8: bool, s: PageState, es: seq<Event>)
    requires s.spinner == Created(true)
    requires NoNewGraphData(es)
    ensures Run(ie8, s, es).spinner == Created(true)
    decreases |es|
  {
    if es != [] {
      assert !es[0].NewGraphData?;
      assert NoNewGraphData(es[1..]) by {
        forall i | 0 <= i < |es[1..]| ensures !es[1..][i].NewGraphData? {
          assert es[1..][i] == es[i + 1];
        }
      }
      SpinnerSpinsUntilData(ie8, Step(ie8, s, es[0]), es[1..]);
    }
  }

  /** The first data to arrive constructs the chart and installs the range mouse
      handling; later data only updates the chart, constructing no second one.
      The spinner is stopped. */
  lemma DataArrivalCreatesOnce(s: PageState, d1: GraphData, d2: GraphData)
    requires Valid(s) && s.graph.None?
    ensures var first := Run(false, s, [NewGraphData(d1)]);
      && first.graph == Some(Chart(d1.dyData, Window(d1.detailStartDateTm, d1.detailEndDateTm)))
      && first.mouseDownHandlers == 1
      && first.chartsCreated == s.chartsCreated + 1
      && !IsSpinning(first.spinner)
    ensures var second := Run(false, s, [NewGraphData(d1), NewGraphData(d2)]);
      && second.graph == Some(Chart(d2.dyData, Window(d2.detailStartDateTm, d2.detailEndDateTm)))
      && second.mouseDownHandlers == 1
      && second.chartsCreated == s.chartsCreated + 1
      && second.requests == s.requests
      && !IsSpinning(second.spinner)
  {
    var t := Step(false, s, NewGraphData(d1));
    assert Run(false, s, [NewGraphData(d1)]) == t;
    assert [NewGraphData(d1), NewGraphData(d2)][1..] == [NewGraphData(d2)];
    assert Run(false, t, [NewGraphData(d2)]) == Step(false, t, NewGraphData(d2));
  }

  /** Startup: constructor, init, the initial data.  Exactly one load, carrying
      the default overview and detail windows, and the spinner shown then
      stopped; the chart then shows the detail window it was loaded with. */
  lemma StartupLoadsDefaults(ie8: bool, now: int, rangeStartMs: int, d: GraphData)
    ensures var w := InitialWindows(now, rangeStartMs);
      var loading := Run(ie8, InitialState(), [PageInit(now, rangeStartMs)]);
      && loading.requests == [LoadRequest(Some(w.overview), w.detail.start, w.detail.end)]
      && loading.spinner == Created(true)
    ensures var loading := Run(ie8, InitialState(), [PageInit(now, rangeStartMs)]);
      var r := Run(ie8, InitialState(), [PageInit(now, rangeStartMs), NewGraphData(d)]);
      && r.requests == loading.requests
      && r.spinner == Created(false)
      && r.graph == Some(Chart(d.dyData, Window(d.detailStartDateTm, d.detailEndDateTm)))
      && r.mouseDownHandlers == 1 && !r.isRangeSelectorActive
  {
    var t := Step(ie8, InitialState(), PageInit(now, rangeStartMs));
    assert Run(ie8, InitialState(), [PageInit(now, rangeStartMs)]) == t;
    assert [PageInit(now, rangeStartMs), NewGraphData(d)][1..] == [NewGraphData(d)];
    assert Run(ie8, t, [NewGraphData(d)]) == Step(ie8, t, NewGraphData(d));
  }

  /** The default range end is the least hour-aligned instant after `now`. */
  lemma RangeEndIsNextHour(now: int, t: int)
    requires t % HOUR_MS == 0 && now < t
    ensures DefaultRangeEnd(now) <= t
  {
  }
}
