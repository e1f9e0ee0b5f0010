/** The refresh state machine of the refreshable scroll view component.

    The component's `state` object is a value of `ViewState`, replaced by a
    shallow merge on every `setState`; the instance fields the handlers
    write are fields of the object. Each event handler is a method. A
    `setState` call and its completion callback run in the same method, in
    that order: the host flushes a handler's state updates, callbacks
    included, before it delivers the next event. The two deferrals the
    component relies on are explicit steps of their own: a
    `requestAnimationFrame` callback (`OnMomentumScrollEnd` queues,
    `AnimationFrame` runs) and the safety timer (`RestoreScrollView` arms,
    `TimerFires` runs). Outbound calls, `onRefreshStart` and `scrollTo`, and
    the TypeError `restoreScrollView` can throw, are recorded in ghost logs. */
module Component {
  import opened Geometry
  import opened Insets
  import opened Progress
  import opened Restoration

  /** The component's `state` object. */
  datatype ViewState = ViewState(
    tracking: bool,
    pullToRefreshProgress: real,
    refreshing: bool,
    waitingToRest: bool,
    returningToTop: bool,
    shouldIncreaseContentInset: bool,
    refreshIndicatorEnd: Option<real>)
  {
    /** No post-pull phase is under way: the guard both refresh starts share. */
    predicate Settled() {
      !refreshing && !waitingToRest && !returningToTop
    }

    /** At most one of the three post-pull phases holds. */
    predicate PhasesExclusive() {
      && !(refreshing && waitingToRest)
      && !(refreshing && returningToTop)
      && !(waitingToRest && returningToTop)
    }

    /** The state `onScroll` leaves behind once the pull progress is known:
        none while progress stays at rest, the progress alone in
        release-to-refresh mode, and otherwise the progress together with a
        refresh that starts once a tracked pull is complete and no phase is
        under way. */
    function AfterScroll(progress: real, releaseToRefresh: bool): (r: ViewState)
      ensures r.(pullToRefreshProgress := pullToRefreshProgress, refreshing := refreshing) == this
      ensures r.pullToRefreshProgress == if progress <= 0.0 && pullToRefreshProgress <= 0.0 then pullToRefreshProgress
                                         else progress
      ensures refreshing ==> r.refreshing
      ensures !refreshing && r.refreshing <==> !releaseToRefresh && progress == 1.0 && tracking && Settled()
      ensures PhasesExclusive() ==> r.PhasesExclusive()
    {
      if progress <= 0.0 && pullToRefreshProgress <= 0.0 then
        this
      else if releaseToRefresh then
        this.(pullToRefreshProgress := progress)
      else
        var shouldBeginRefreshing := progress == 1.0 && tracking && !refreshing && !waitingToRest && !returningToTop;
        this.(pullToRefreshProgress := progress, refreshing := refreshing || shouldBeginRefreshing)
    }

    /** The state after a run of scroll events reporting the given
        progress values in order. Only progress and `refreshing` change; a
        refresh is never stopped; and one is running at the end exactly when
        it already was or, in continuous mode during a touch with no phase
        under way, some event of the run reported a complete pull. */
    function AfterScrolls(progresses: seq<real>, releaseToRefresh: bool): (r: ViewState)
      ensures r == this.(pullToRefreshProgress := r.pullToRefreshProgress, refreshing := r.refreshing)
      ensures r.refreshing <==> refreshing || (!releaseToRefresh && tracking && Settled() && 1.0 in progresses)
      decreases |progresses|
    {
      if progresses == [] then
        this
      else
        assert progresses == [progresses[0]] + progresses[1..];
        AfterScroll(progresses[0], releaseToRefresh).AfterScrolls(progresses[1..], releaseToRefresh)
    }

    /** The state `onResponderRelease` leaves behind: the touch is over and,
        in release-to-refresh mode, a complete pull starts a refresh when no
        phase is under way. */
    function AfterRelease(releaseToRefresh: bool): (r: ViewState)
      ensures r == this.(tracking := false, refreshing := r.refreshing)
      ensures refreshing ==> r.refreshing
      ensures !refreshing && r.refreshing <==> releaseToRefresh && pullToRefreshProgress >= 1.0 && Settled()
      ensures PhasesExclusive() ==> r.PhasesExclusive()
    {
      var released := this.(tracking := false);
      if releaseToRefresh && pullToRefreshProgress >= 1.0 && Settled() then released.(refreshing := true)
      else released
    }

    /** The `active` flag passed to the indicator. */
    predicate IsRefreshIndicatorActive() {
      refreshing || waitingToRest
    }

    /** `pointerEvents` is 'none' while scrolling back. */
    predicate PointerEventsBlocked() {
      returningToTop
    }
  }

  /** `getInitialState` */
  const INITIAL_STATE: ViewState := ViewState(false, 0.0, false, false, false, false, None)

  class RefreshableScrollView {

    // Props, fixed for the lifetime of the instance.
    const orientation: Orientation
    const releaseToRefresh: bool
    const pullToRefreshDistance: Option<real>
    const contentInset: Option<PartialInset>

    var state: ViewState

    // Instance fields; the metrics stay undefined until the first scroll event.
    var nativeContentInset: Option<Inset>
    var nativeContentOffset: Option<Point>
    var nativeContentInsetAdjustment: Option<Inset>
    var returningToTopSafetyTimeout: Option<nat>

    // The host's scheduler: safety timers armed and neither fired nor
    // cleared, the next timer handle, and queued animation-frame callbacks.
    var pendingTimers: set<nat>
    var nextTimerId: nat
    var pendingFrames: nat

    // Outbound effects: `onRefreshStart` calls, `scrollTo` destinations,
    // and TypeErrors thrown out of a handler.
    ghost var refreshStartCalls: nat
    ghost var scrollCommands: seq<Point>
    ghost var typeErrors: nat

    /** A scroll event has been received. */
    predicate Measured()
      reads this
    {
      nativeContentInset.Some? && nativeContentOffset.Some? && nativeContentInsetAdjustment.Some?
    }

    /** The object invariant: progress stays in [0, 1]; the three metric
        fields are set together; anything that needs the metrics only
        happens after a scroll event; the timer handle names the one
        outstanding safety timer, if any. */
    ghost predicate Valid()
      reads this
    {
      && 0.0 <= state.pullToRefreshProgress <= 1.0
      && nativeContentInset.Some? == nativeContentOffset.Some? == nativeContentInsetAdjustment.Some?
      && (state.pullToRefreshProgress > 0.0 || refreshStartCalls > 0 || state.shouldIncreaseContentInset
          ==> Measured())
      && (state.refreshing || state.waitingToRest ==> refreshStartCalls > 0)
      && (returningToTopSafetyTimeout.None? ==> pendingTimers == {})
      && (returningToTopSafetyTimeout.Some? ==> pendingTimers == {returningToTopSafetyTimeout.value})
    }

    /** Nothing ever sets `shouldIncreaseContentInset`, so the exposed inset
        stays the configured one, the adjustment is measured against it,
        restoration never scrolls, and no safety timer is ever armed. */
    ghost predicate NoIndicatorReservation()
      reads this
    {
      && !state.shouldIncreaseContentInset
      && !state.returningToTop
      && returningToTopSafetyTimeout.None?
      && pendingTimers == {}
      && scrollCommands == []
      && (Measured() ==>
            nativeContentInsetAdjustment.value == NativeAdjustment(contentInset, nativeContentInset.value))
    }

    /** What holds in every state the constructor and the handlers reach. */
    ghost predicate Reachable()
      reads this
    {
      Valid() && state.PhasesExclusive() && NoIndicatorReservation()
    }

    /** The inset handed to the scroll view on the last render: the
        configured one while no room is reserved, and otherwise an inset
        object whose pull-axis side is defined. */
    function ExposedInset(): (exposed: Option<PartialInset>)
      reads this
      requires Valid()
      ensures !state.shouldIncreaseContentInset ==> exposed == contentInset
      ensures state.shouldIncreaseContentInset ==> exposed.Some? && exposed.value.Get(orientation.PrimarySide()).Some?
    {
      ContentInsetAdjustedForIndicator(contentInset, orientation, state.shouldIncreaseContentInset,
                                       state.refreshIndicatorEnd, nativeContentInsetAdjustment)
    }

    /** Where restoring the scroll position would go from this state. */
    function Destination(): Restoration
      reads this
      requires Valid() && Measured()
    {
      ScrollDestination(orientation, contentInset, ExposedInset(),
                        nativeContentOffset.value, nativeContentInset.value)
    }

    twostate predicate MetricsUnchanged()
      reads this
    {
      && nativeContentInset == old(nativeContentInset)
      && nativeContentOffset == old(nativeContentOffset)
      && nativeContentInsetAdjustment == old(nativeContentInsetAdjustment)
    }

    twostate predicate TimersUnchanged()
      reads this
    {
      && returningToTopSafetyTimeout == old(returningToTopSafetyTimeout)
      && pendingTimers == old(pendingTimers)
      && nextTimerId == old(nextTimerId)
      && scrollCommands == old(scrollCommands)
    }

    /** Only `state` may have changed. */
    twostate predicate OnlyStateChanged()
      reads this
    {
      && MetricsUnchanged() && TimersUnchanged()
      && pendingFrames == old(pendingFrames)
      && refreshStartCalls == old(refreshStartCalls)
      && typeErrors == old(typeErrors)
    }

    /** The effects of restoring towards `dest` from the state `base`: a
        thrown TypeError leaves `base` and the timers as they are; otherwise
        every post-pull phase ends, the padding is released,
        `returningToTop` says whether a scroll was issued, and a scroll
        comes with a fresh safety timer that replaces any pending one. */
    twostate predicate RestoredFrom(base: ViewState, dest: Restoration)
      reads this
    {
      if dest.ExposedInsetMissing? then
        && state == base
        && typeErrors == old(typeErrors) + 1
        && TimersUnchanged()
      else
        && state == base.(refreshing := false, waitingToRest := false, returningToTop := dest.ScrollTo?,
                          shouldIncreaseContentInset := false)
        && typeErrors == old(typeErrors)
        && if dest.ScrollTo? then
             && scrollCommands == old(scrollCommands) + [dest.destination]
             && returningToTopSafetyTimeout == Some(old(nextTimerId))
             && pendingTimers == {old(nextTimerId)}
             && nextTimerId == old(nextTimerId) + 1
           else
             TimersUnchanged()
    }

    /** `getInitialState`: every facet at rest, nothing measured yet. */
    constructor (orientation: Orientation, releaseToRefresh: bool,
                 pullToRefreshDistance: Option<real>, contentInset: Option<PartialInset>)
      ensures Reachable()
      ensures this.orientation == orientation && this.releaseToRefresh == releaseToRefresh
      ensures this.pullToRefreshDistance == pullToRefreshDistance && this.contentInset == contentInset
      ensures state == INITIAL_STATE
      ensures !Measured() && pendingFrames == 0
      ensures refreshStartCalls == 0 && typeErrors == 0
    {
      this.orientation := orientation;
      this.releaseToRefresh := releaseToRefresh;
      this.pullToRefreshDistance := pullToRefreshDistance;
      this.contentInset := contentInset;
      state := INITIAL_STATE;
      nativeContentInset := None;
      nativeContentOffset := None;
      nativeContentInsetAdjustment := None;
      returningToTopSafetyTimeout := None;
      pendingTimers := {};
      nextTimerId := 0;
      pendingFrames := 0;
      refreshStartCalls := 0;
      scrollCommands := [];
      typeErrors := 0;
    }

    /** `onScroll`: records the metrics, recomputes the progress and, in
        continuous mode, starts a refresh once a tracked pull is complete
        and no phase is under way. A scroll that keeps progress at rest
        changes no state; in release-to-refresh mode a scroll changes only
        the progress; no scroll ever stops a refresh. */
    method OnScroll(inset: Inset, offset: Point)
      requires Valid()
      modifies this
      ensures Valid()
      ensures nativeContentInset == Some(inset) && nativeContentOffset == Some(offset)
      ensures nativeContentInsetAdjustment == Some(NativeAdjustment(old(ExposedInset()), inset))
      ensures state == old(state).AfterScroll(PullProgress(orientation, pullToRefreshDistance, old(state.refreshIndicatorEnd),
                                                           inset, offset), releaseToRefresh)
      ensures refreshStartCalls == old(refreshStartCalls) + (if !old(state.refreshing) && state.refreshing then 1 else 0)
      ensures TimersUnchanged() && pendingFrames == old(pendingFrames) && typeErrors == old(typeErrors)
      ensures old(NoIndicatorReservation()) ==> NoIndicatorReservation()
    {
      RecordScrollMetrics(inset, offset);
      var progress := PullProgress(orientation, pullToRefreshDistance, state.refreshIndicatorEnd, inset, offset);
      ApplyScrollProgress(progress);
    }

    /** The first half of `onScroll`: keeps the reported inset and offset,
        and what the platform added to the inset the scroll view was last
        handed. */
    method RecordScrollMetrics(inset: Inset, offset: Point)
      requires Valid()
      modifies this
      ensures Valid() && Measured()
      ensures nativeContentInset == Some(inset) && nativeContentOffset == Some(offset)
      ensures nativeContentInsetAdjustment == Some(NativeAdjustment(old(ExposedInset()), inset))
      ensures state == old(state) && TimersUnchanged() && pendingFrames == old(pendingFrames)
      ensures refreshStartCalls == old(refreshStartCalls) && typeErrors == old(typeErrors)
    {
      var adjustment := CalculateNativeContentInsetAdjustment(ExposedInset(), inset);
      nativeContentInset, nativeContentOffset, nativeContentInsetAdjustment := Some(inset), Some(offset), Some(adjustment);
    }

    /** The second half of `onScroll`: the state update for a freshly
        computed progress, and the refresh callback on a refresh start. */
    method ApplyScrollProgress(progress: real)
      requires Valid() && Measured() && 0.0 <= progress <= 1.0
      modifies this
      ensures Valid()
      ensures state == old(state).AfterScroll(progress, releaseToRefresh)
      ensures refreshStartCalls == old(refreshStartCalls) + (if !old(state.refreshing) && state.refreshing then 1 else 0)
      ensures MetricsUnchanged() && TimersUnchanged()
      ensures pendingFrames == old(pendingFrames) && typeErrors == old(typeErrors)
    {
      if progress <= 0.0 && state.pullToRefreshProgress <= 0.0 {
        return;
      }
      if releaseToRefresh {
        state := state.(pullToRefreshProgress := progress);
        return;
      }

      var wasRefreshing := state.refreshing;
      var shouldBeginRefreshing := progress == 1.0 && state.tracking && !state.refreshing
                                   && !state.waitingToRest && !state.returningToTop;
      state := state.(pullToRefreshProgress := progress, refreshing := state.refreshing || shouldBeginRefreshing);
      if !wasRefreshing && state.refreshing {
        refreshStartCalls := refreshStartCalls + 1;
      }
    }

    /** `onResponderGrant`: a touch went down; only `tracking` changes. */
    method OnResponderGrant()
      requires Valid()
      modifies this
      ensures Valid()
      ensures state == old(state).(tracking := true)
      ensures OnlyStateChanged()
      ensures old(Reachable()) ==> Reachable()
    {
      state := state.(tracking := true);
    }

    /** `onResponderRelease`: the touch lifted. In release-to-refresh mode a
        complete pull starts a refresh when no phase is under way; the
        refresh callback fires exactly on that transition. */
    method OnResponderRelease()
      requires Valid()
      modifies this
      ensures Valid()
      ensures state == old(state).AfterRelease(releaseToRefresh)
      ensures refreshStartCalls == old(refreshStartCalls) + (if !old(state.refreshing) && state.refreshing then 1 else 0)
      ensures MetricsUnchanged() && TimersUnchanged()
      ensures pendingFrames == old(pendingFrames) && typeErrors == old(typeErrors)
      ensures old(NoIndicatorReservation()) ==> NoIndicatorReservation()
    {
      var newState := state.(tracking := false);
      var wasRefreshing := state.refreshing;
      if releaseToRefresh && state.pullToRefreshProgress >= 1.0
         && !wasRefreshing && !state.waitingToRest && !state.returningToTop {
        newState := newState.(refreshing := true);
      }
      state := newState;
      if !wasRefreshing && state.refreshing {
        refreshStartCalls := refreshStartCalls + 1;
      }
    }

    /** `onMomentumScrollEnd`: defers its check to the next animation frame,
        so that a touch that stopped the scroll is seen first. */
    method OnMomentumScrollEnd()
      requires Valid()
      modifies this
      ensures Valid()
      ensures pendingFrames == old(pendingFrames) + 1
      ensures state == old(state) && MetricsUnchanged() && TimersUnchanged()
      ensures refreshStartCalls == old(refreshStartCalls) && typeErrors == old(typeErrors)
      ensures old(Reachable()) ==> Reachable()
    {
      pendingFrames := pendingFrames + 1;
    }

    /** A queued animation-frame callback runs: restore once the view waits
        to rest and is no longer touched. */
    method AnimationFrame()
      requires Valid() && pendingFrames > 0
      modifies this
      ensures Valid()
      ensures pendingFrames == old(pendingFrames) - 1
      ensures old(state.waitingToRest && !state.tracking) ==> RestoredFrom(old(state), old(Destination()))
      ensures !old(state.waitingToRest && !state.tracking) ==>
                state == old(state) && TimersUnchanged() && typeErrors == old(typeErrors)
      ensures MetricsUnchanged() && refreshStartCalls == old(refreshStartCalls)
      ensures old(state.PhasesExclusive()) ==> state.PhasesExclusive()
      ensures old(NoIndicatorReservation()) ==> NoIndicatorReservation()
    {
      pendingFrames := pendingFrames - 1;
      if state.waitingToRest && !state.tracking {
        RestoreScrollView();
      }
    }

    /** `onRefreshEnd`, the callback handed to `onRefreshStart`; it exists
        only once a refresh has been started. Ignored when not refreshing,
        except in release-to-refresh mode. Otherwise the refresh ends; the
        view waits to rest while touched or overscrolled, and is restored at
        once if not. */
    method OnRefreshEnd()
      requires Valid() && refreshStartCalls > 0
      modifies this
      ensures Valid()
      ensures old(!state.refreshing && !releaseToRefresh) ==> state == old(state) && OnlyStateChanged()
      ensures old(state.refreshing || releaseToRefresh) ==>
                var waiting := old(state.tracking)
                               || IsOverscrolled(orientation, old(nativeContentOffset).value,
                                                 old(nativeContentInset).value);
                var ended := old(state).(refreshing := false, waitingToRest := waiting);
                && (waiting ==> state == ended && TimersUnchanged() && typeErrors == old(typeErrors))
                && (!waiting ==> RestoredFrom(ended, old(Destination())))
      ensures MetricsUnchanged() && pendingFrames == old(pendingFrames)
      ensures refreshStartCalls == old(refreshStartCalls)
      ensures old(state.PhasesExclusive()) && (old(state.refreshing) || !old(state.returningToTop))
              ==> state.PhasesExclusive()
      ensures old(NoIndicatorReservation()) ==> NoIndicatorReservation()
      ensures old(Reachable()) ==> Reachable()
    {
      if !state.refreshing && !releaseToRefresh {
        return;
      }
      var waiting := state.tracking || IsOverscrolled(orientation, nativeContentOffset.value, nativeContentInset.value);
      state := state.(refreshing := false, waitingToRest := waiting);
      if !waiting {
        RestoreScrollView();
      }
    }

    /** `onRefreshIndicatorContainerLayout`: records the indicator's far
        edge along the pull axis. */
    method OnRefreshIndicatorContainerLayout(x: real, y: real, width: real, height: real)
      requires Valid()
      modifies this
      ensures Valid()
      ensures state == old(state).(refreshIndicatorEnd := Some(if orientation.Horizontal? then x + width else y + height))
      ensures OnlyStateChanged()
      ensures old(Reachable()) ==> Reachable()
    {
      state := state.(refreshIndicatorEnd := Some(if orientation.Horizontal? then x + width else y + height));
    }

    /** `restoreScrollView`: ends every post-pull phase, releases the padding
        and, when room is reserved beyond what has already scrolled away,
        scrolls back and arms the safety timer. Without an exposed inset the
        handler throws before changing anything. */
    method RestoreScrollView()
      requires Valid() && Measured()
      modifies this
      ensures Valid()
      ensures RestoredFrom(old(state), old(Destination()))
      ensures MetricsUnchanged() && pendingFrames == old(pendingFrames)
      ensures refreshStartCalls == old(refreshStartCalls)
      ensures old(NoIndicatorReservation()) ==> NoIndicatorReservation()
    {
      var destination := ScrollDestination(orientation, contentInset, ExposedInset(),
                                           nativeContentOffset.value, nativeContentInset.value);
      if !state.shouldIncreaseContentInset {
        NoScrollWithoutReservation(orientation, contentInset, nativeContentOffset.value, nativeContentInset.value);
      }
      if destination.ExposedInsetMissing? {
        typeErrors := typeErrors + 1;
        return;
      }

      state := state.(refreshing := false, waitingToRest := false, returningToTop := destination.ScrollTo?,
                      shouldIncreaseContentInset := false);
      // The completion callback: scroll, clear the pending timer, arm a new one.
      if destination.ScrollTo? {
        scrollCommands := scrollCommands + [destination.destination];
        var timers := pendingTimers;
        if returningToTopSafetyTimeout.Some? {
          timers := timers - {returningToTopSafetyTimeout.value};
        }
        pendingTimers, returningToTopSafetyTimeout, nextTimerId := timers + {nextTimerId}, Some(nextTimerId), nextTimerId + 1;
      }
    }

    /** The safety timer fires: only `returningToTop` and the handle change. */
    method TimerFires(id: nat)
      requires Valid() && id in pendingTimers
      modifies this
      ensures Valid()
      ensures state == old(state).(returningToTop := false)
      ensures returningToTopSafetyTimeout.None? && pendingTimers == old(pendingTimers) - {id}
      ensures nextTimerId == old(nextTimerId) && scrollCommands == old(scrollCommands)
      ensures MetricsUnchanged() && pendingFrames == old(pendingFrames)
      ensures refreshStartCalls == old(refreshStartCalls) && typeErrors == old(typeErrors)
      ensures old(state.PhasesExclusive()) ==> state.PhasesExclusive()
      ensures old(NoIndicatorReservation()) ==> NoIndicatorReservation()
    {
      pendingTimers := pendingTimers - {id};
      returningToTopSafetyTimeout := None;
      state := state.(returningToTop := false);
    }
  }

  /** Over a run of scroll events whose progress values lie in [0, 1], as
      `PullProgress` always does, the rest-case keep of `onScroll` never
      holds back a value: the state ends with the run's last progress. The
      progress stays a fraction, and no two post-pull phases start to
      overlap. */
  lemma {:induction false} ScrollRunEndsAtLastProgress(state: ViewState, progresses: seq<real>, releaseToRefresh: bool)
    requires 0.0 <= state.pullToRefreshProgress <= 1.0
    requires forall i :: 0 <= i < |progresses| ==> 0.0 <= progresses[i] <= 1.0
    ensures progresses != [] ==>
      state.AfterScrolls(progresses, releaseToRefresh).pullToRefreshProgress == progresses[|progresses| - 1]
    ensures 0.0 <= state.AfterScrolls(progresses, releaseToRefresh).pullToRefreshProgress <= 1.0
    ensures state.PhasesExclusive() ==> state.AfterScrolls(progresses, releaseToRefresh).PhasesExclusive()
    decreases |progresses|
  {
    if progresses != [] {
      var next := state.AfterScroll(progresses[0], releaseToRefresh);
      assert next.pullToRefreshProgress == progresses[0];
      ScrollRunEndsAtLastProgress(next, progresses[1..], releaseToRefresh);
    }
  }

  /** Arming always clears the previous timer first, so at most one safety
      timer is ever outstanding, and it is the one the handle names. */
  lemma AtMostOneSafetyTimer(view: RefreshableScrollView)
    requires view.Valid()
    ensures |view.pendingTimers| <= 1
    ensures forall id :: id in view.pendingTimers ==> view.returningToTopSafetyTimeout == Some(id)
  {
  }

  /** In every reachable state restoration never scrolls: it throws when no
      inset is configured and otherwise leaves the view where it is. */
  lemma RestorationNeverScrolls(view: RefreshableScrollView)
    requires view.Reachable() && view.Measured()
    ensures !view.Destination().ScrollTo?
    ensures view.Destination().ExposedInsetMissing? <==> view.contentInset.None?
  {
    NoScrollWithoutReservation(view.orientation, view.contentInset,
                               view.nativeContentOffset.value, view.nativeContentInset.value);
  }

  /** In every reachable state the exposed inset is the configured one. */
  lemma ExposedInsetIsConfigured(view: RefreshableScrollView)
    requires view.Reachable()
    ensures view.ExposedInset() == view.contentInset
  {
  }
}
