/** Event sequences driven through the component's handlers, checked
    against their contracts alone. */
module Scenarios {
  import opened Geometry
  import opened Progress
  import opened Restoration
  import opened Component

  const TOP_INSET_ZERO: Option<PartialInset> := Some(PartialInset(Some(0.0), None, None, None))

  /** A vertical view whose 60-high indicator is laid out, touched and
      pulled 130 past its edge with no inset: threshold 120, progress 1.
      In continuous mode that scroll event has started the refresh. */
  method PullPastThreshold(releaseToRefresh: bool, contentInset: Option<PartialInset>)
    returns (view: RefreshableScrollView)
    ensures fresh(view) && view.Reachable()
    ensures view.orientation == Vertical && view.releaseToRefresh == releaseToRefresh
    ensures view.contentInset == contentInset
    ensures view.state.tracking && view.state.pullToRefreshProgress == 1.0
    ensures view.nativeContentOffset == Some(Point(0.0, -130.0)) && view.nativeContentInset == Some(ZERO_INSET)
    ensures view.state.refreshing == !releaseToRefresh && !view.state.waitingToRest
    ensures view.refreshStartCalls == (if releaseToRefresh then 0 else 1) && view.typeErrors == 0
  {
    view := new RefreshableScrollView(Vertical, releaseToRefresh, None, contentInset);
    view.OnRefreshIndicatorContainerLayout(0.0, 0.0, 320.0, 60.0);
    view.OnResponderGrant();
    view.OnScroll(ZERO_INSET, Point(0.0, -130.0));
  }

  /** Release-to-refresh: releasing a complete pull starts exactly one
      refresh; ending it while still overscrolled waits to rest without
      scrolling. */
  method ReleaseStartsRefresh() returns (view: RefreshableScrollView)
    ensures fresh(view) && view.Reachable() && view.releaseToRefresh
    ensures !view.state.refreshing && view.state.waitingToRest && !view.state.tracking
    ensures view.refreshStartCalls == 1 && view.scrollCommands == []
  {
    view := PullPastThreshold(true, TOP_INSET_ZERO);
    view.OnResponderRelease();
    assert view.state.refreshing && !view.state.tracking && view.refreshStartCalls == 1;
    view.OnResponderRelease();
    assert view.refreshStartCalls == 1;
    view.OnRefreshEnd();
  }

  /** When the momentum scroll ends with no touch down, the view is
      restored on the next frame: every phase is over and nothing was
      scrolled, since no room was reserved; with an inset configured,
      nothing throws either. */
  method SettleAfterRefresh(view: RefreshableScrollView)
    requires view.Reachable() && view.state.waitingToRest && !view.state.tracking
    requires view.contentInset.Some?
    modifies view
    ensures view.Reachable()
    ensures !view.state.refreshing && !view.state.waitingToRest && !view.state.returningToTop
    ensures view.scrollCommands == [] && view.typeErrors == old(view.typeErrors)
  {
    view.OnMomentumScrollEnd();
    assert view.Destination() == Restoration.AtRest;
    view.AnimationFrame();
  }

  /** Continuous mode: the scroll event that completes a tracked pull starts
      the refresh; pulling further starts no other. */
  method ContinuousRefreshStartsOnScroll() returns (view: RefreshableScrollView)
    ensures fresh(view) && view.Reachable()
    ensures view.state.refreshing && view.refreshStartCalls == 1
  {
    view := PullPastThreshold(false, TOP_INSET_ZERO);
    assert view.state.refreshing && view.refreshStartCalls == 1;
    view.OnScroll(ZERO_INSET, Point(0.0, -140.0));
  }

  /** Below the threshold progress is the pulled fraction and no refresh starts. */
  method PartialPullDoesNotStart() returns (view: RefreshableScrollView)
    ensures fresh(view) && view.Reachable()
    ensures view.state.pullToRefreshProgress == 0.75 && !view.state.refreshing && view.refreshStartCalls == 0
  {
    view := new RefreshableScrollView(Vertical, false, None, TOP_INSET_ZERO);
    view.OnRefreshIndicatorContainerLayout(0.0, 0.0, 320.0, 60.0);
    view.OnResponderGrant();
    DerivedThresholdExample();
    view.OnScroll(ZERO_INSET, Point(0.0, -90.0));
  }

  /** In any reachable state, signalling the end of a refresh twice in a
      row leaves the state as the first signal left it. */
  method EndTwiceEqualsEndOnce(view: RefreshableScrollView) returns (once: ViewState)
    requires view.Reachable() && view.refreshStartCalls > 0
    modifies view
    ensures view.Reachable() && view.state == once && !once.refreshing
  {
    view.OnRefreshEnd();
    once := view.state;
    view.OnRefreshEnd();
  }

  /** Release-to-refresh: an end signal is not ignored when no refresh is
      running; arriving during a touch it puts an idle view into
      waiting-to-rest and reactivates the indicator. */
  method LateEndInReleaseModeWaits(view: RefreshableScrollView)
    requires view.Reachable() && view.refreshStartCalls > 0 && view.releaseToRefresh
    requires !view.state.refreshing && !view.state.waitingToRest
    modifies view
    ensures !view.state.refreshing && view.state.waitingToRest && view.state.IsRefreshIndicatorActive()
  {
    view.OnResponderGrant();
    view.OnRefreshEnd();
  }

  /** An explicit distance of 0 before the indicator is laid out yields a
      threshold of 0: in continuous mode a touch and any scroll event at
      rest start a refresh. */
  method ZeroDistanceStartsAtRest() returns (view: RefreshableScrollView)
    ensures fresh(view) && view.Reachable()
    ensures view.state.pullToRefreshProgress == 1.0 && view.state.refreshing && view.refreshStartCalls == 1
  {
    view := new RefreshableScrollView(Vertical, false, Some(0.0), TOP_INSET_ZERO);
    view.OnResponderGrant();
    ZeroDistanceBeforeLayout(Vertical, ZERO_INSET, Point(0.0, 0.0));
    view.OnScroll(ZERO_INSET, Point(0.0, 0.0));
  }

  /** With no `contentInset` configured, restoring reads a side of an
      undefined inset: the end signal ends the refresh and then throws. */
  method RestoreWithoutConfiguredInsetThrows(view: RefreshableScrollView)
    requires view.Reachable() && view.contentInset.None? && view.state.refreshing && !view.state.tracking
    requires view.Measured() && !IsOverscrolled(view.orientation, view.nativeContentOffset.value,
                                                 view.nativeContentInset.value)
    modifies view
    ensures !view.state.refreshing && !view.state.waitingToRest && view.typeErrors == old(view.typeErrors) + 1
  {
    view.OnRefreshEnd();
  }
}
