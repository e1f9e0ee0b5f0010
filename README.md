# Refreshable scroll view: the refresh state machine

A Dafny model of the pull-to-refresh logic of `RefreshableScrollView`, a React
Native component that wraps a scroll view. A refresh indicator sits above the
content. Pulling the content past its resting edge fills a progress value in
[0, 1]. A complete pull starts a refresh: at once in continuous mode, or when
the touch is released in release-to-refresh mode. The component then calls
`onRefreshStart` and hands it a done callback. When the caller signals done, the
view either waits for the content to come to rest or restores its scroll
position.

The model has five modules:

- `Geometry` holds the value types. These are insets, whose sides may be
  `null` in a configured inset; points; and the pull axis (`horizontal`).
  JavaScript numbers are modelled as `real`.
- `Insets` holds the inset bookkeeping:
  - the adjustment the platform adds to the configured inset, a method with
    the source's loop over the four sides;
  - the inset the component hands to the scroll view, `getContentInsetAdjustedForIndicator`.
- `Progress` holds the pull-progress computation of `onScroll` and `isOverscrolled`.
- `Restoration` holds the destination arithmetic of `restoreScrollView`.
- `Component` holds the component itself. It is a class whose `state` field is
  the React state object, a `ViewState` value. Its other fields are the
  instance fields the handlers write. Each event handler is a method.
  - `setState` replaces `state` with a shallow merge. Its completion callback
    runs in the same method, right after it.
  - The two deferrals are explicit steps of their own:
    - `OnMomentumScrollEnd` queues an animation frame and `AnimationFrame` runs it.
    - `RestoreScrollView` arms the 300 ms safety timer and `TimerFires` runs it.
  - Ghost logs record the outbound effects: calls to `onRefreshStart`,
    `scrollTo` destinations, and TypeErrors thrown out of a handler.

`Scenarios` drives event sequences through the handlers. Each sequence is
checked against the handlers' contracts alone.

The model follows the code as written:

- Nothing ever sets `shouldIncreaseContentInset` to true (lines 83 and 386). So
  the scroll view is always handed the configured inset, and the adjustment is
  measured against it. No room is ever reserved for the indicator, so
  restoration never scrolls and the safety timer is never armed.
  `NoIndicatorReservation` states this, and every handler preserves it. The
  machinery for the other case is modelled all the same:
  - the padded inset;
  - the scroll destination;
  - the timer that replaces a pending one.
  Its properties are proved for arbitrary states.
- With no `contentInset` configured, `restoreScrollView` reads `.top` (or
  `.left`) of `undefined` and throws a TypeError before its `setState`. The
  model records the throw and leaves the state as it was.
- An explicit `pullToRefreshDistance` of 0 is falsy at line 237, so the derived
  threshold is used instead. Before the indicator is laid out, that threshold
  is `(null - axisInset) * 2`. With a non-negative reported axis inset it is
  not positive, and progress is 1 whatever the offset, even at rest.
- The guard of `onRefreshEnd` only ignores the call when no refresh is running
  outside release-to-refresh mode. In release-to-refresh mode a late or
  repeated done call is acted on. It can then put `waitingToRest` beside a
  running `returningToTop`. So `OnRefreshEnd` preserves phase exclusivity only
  from states where that cannot happen. In reachable states it always holds,
  because `returningToTop` is never set.

## Model

| member | source | states |
|---|---|---|
| Insets.CalculateNativeContentInsetAdjustment | RefreshableScrollView.js:203-216 | the loop over the four sides yields all zeros when no inset is handed to the scroll view; otherwise each side is the reported inset minus the handed inset where that side is set, and 0 where it is not |
| Insets.ContentInsetAdjustedForIndicator | RefreshableScrollView.js:179-201 | without a reservation the configured inset is returned unchanged (possibly undefined); with one, a copy in which only the pull-axis side changes: it is at least the configured side (or 0), and with the platform's adjustment it reaches the indicator's far edge |
| Insets.ReservedSideIsLeast | RefreshableScrollView.js:186-198 | the grown side is the least value meeting both bounds, i.e. exactly `max(end - adjustment, configured-or-0)` |
| Progress.PullProgress | RefreshableScrollView.js:229-248 | progress is always within [0, 1]; it is 0 when neither an explicit distance nor an indicator edge is known, and 1 whenever the threshold is not positive |
| Progress.ProgressIsFraction | RefreshableScrollView.js:234-244 | between rest and a full pull, progress is exactly the pull distance over the threshold |
| Progress.FullPullIff | RefreshableScrollView.js:241-243 | with a positive threshold, progress is 1 if and only if the pull distance reaches the threshold |
| Progress.PositiveProgressIff | RefreshableScrollView.js:241-243 | with a positive threshold, progress is positive if and only if the view is overscrolled |
| Progress.ProgressMonotonic | RefreshableScrollView.js:229-248 | for one configuration and reported inset, a longer pull never yields a lower progress |
| Progress.ZeroDistanceFallsBack | RefreshableScrollView.js:237-239 | an explicit distance of 0 is falsy: with the indicator laid out, progress is the same as with no distance configured |
| Progress.ZeroDistanceBeforeLayout | RefreshableScrollView.js:232-246 | an explicit distance of 0 before the indicator is laid out makes the threshold `(null - axisInset) * 2`; with a non-negative reported axis inset that is not positive, so progress is 1 whatever the offset |
| Progress.DerivedThresholdExample | RefreshableScrollView.js:237-243 | an indicator edge at 60, no inset and offset -90 give threshold 120 and progress 0.75 |
| Progress.ExplicitThresholdExample | RefreshableScrollView.js:237-243 | an explicit distance of 50 takes precedence over the indicator edge, and a pull of 90 clamps to 1 |
| Progress.IsOverscrolled | RefreshableScrollView.js:341-347 | `isOverscrolled` holds exactly when the pull distance `onScroll` computes (line 236) is positive |
| Restoration.ScrollDestination | RefreshableScrollView.js:356-379 | restoration throws if and only if no inset was handed to the scroll view; a destination exists if and only if the reserved extent is defined, positive and larger than the scrolled distance; its pull-axis offset is `min(offset, -inset) + reserved` and its other axis is unchanged |
| Restoration.DestinationAdvance | RefreshableScrollView.js:366-377 | a restoration scroll always moves forward: by the whole reserved extent while overscrolled, otherwise by the reserved extent less the distance already scrolled |
| Restoration.DestinationUncoversReserve | RefreshableScrollView.js:366-377 | at the destination the scrolled distance never exceeds the reserved extent, equals it exactly when the view was not overscrolled, and falls short by the overscroll otherwise |
| Restoration.NoScrollWithoutReservation | RefreshableScrollView.js:179-185 | when the scroll view is handed the configured inset itself, restoration never scrolls, and it throws exactly when no inset is configured |
| Component.ViewState.AfterScroll | RefreshableScrollView.js:250-272 | the state update of `onScroll`: only progress and `refreshing` can change; progress is kept when old and new progress are both at rest, and is replaced otherwise; a refresh is never stopped; a refresh starts exactly when not in release-to-refresh mode, progress is exactly 1, a touch is tracked and no phase is under way; phase exclusivity is preserved |
| Component.ViewState.AfterScrolls | RefreshableScrollView.js:250-272 | over a run of scroll events only progress and `refreshing` change, and a refresh is running at the end exactly when one already was or, in continuous mode during a touch with no phase under way, some event of the run reported progress 1 |
| Component.ScrollRunEndsAtLastProgress | RefreshableScrollView.js:243-272 | over any run of scroll events with progress values in [0, 1] (the range `PullProgress` guarantees), starting from a progress in [0, 1], the rest-case keep at line 250 never holds a value back: the state ends with the run's last progress, progress stays in [0, 1], and exclusive post-pull phases stay exclusive |
| Component.ViewState.AfterRelease | RefreshableScrollView.js:290-297 | the state update of `onResponderRelease`: `tracking` becomes false and only `refreshing` can change besides; a refresh is never stopped; one starts exactly when in release-to-refresh mode with progress at least 1 and no phase under way; phase exclusivity is preserved |
| Component.RefreshableScrollView.ExposedInset | RefreshableScrollView.js:153 | the inset handed to the scroll view, read back at lines 204 and 363: the configured inset (possibly undefined) while no room is reserved, and otherwise an inset object whose pull-axis side is defined |
| Component.RefreshableScrollView.constructor | RefreshableScrollView.js:49-87 | the initial state has every flag false, progress 0 and no indicator edge; nothing is measured, no timer or frame is pending, and the reachable-state invariant holds |
| Component.RefreshableScrollView.OnScroll | RefreshableScrollView.js:218-275 | the reported inset and offset are stored; the adjustment is measured against the inset handed to the scroll view; the state becomes `AfterScroll` of the computed progress; `onRefreshStart` is called exactly on a false-to-true change of `refreshing`; no timer changes |
| Component.RefreshableScrollView.OnResponderGrant | RefreshableScrollView.js:277-282 | `tracking` becomes true and nothing else changes |
| Component.RefreshableScrollView.OnResponderRelease | RefreshableScrollView.js:284-303 | the state becomes `AfterRelease`; `onRefreshStart` is called exactly on a false-to-true change of `refreshing`; nothing else changes |
| Component.RefreshableScrollView.OnMomentumScrollEnd | RefreshableScrollView.js:305-319 | one animation-frame callback is queued and nothing else changes |
| Component.RefreshableScrollView.AnimationFrame | RefreshableScrollView.js:314-318 | the queued callback restores the scroll view exactly when it is waiting to rest and not touched, and otherwise changes nothing |
| Component.RefreshableScrollView.OnRefreshEnd | RefreshableScrollView.js:321-347 | ignored exactly when not refreshing outside release-to-refresh mode; otherwise `refreshing` becomes false and `waitingToRest` becomes "touched or overscrolled"; when not waiting, the view is restored from that state at once; reachable states stay reachable |
| Component.RefreshableScrollView.OnRefreshIndicatorContainerLayout | RefreshableScrollView.js:349-354 | the indicator's far edge along the pull axis (`x + width` or `y + height`) is stored and nothing else changes |
| Component.RefreshableScrollView.RestoreScrollView | RefreshableScrollView.js:356-400 | without an exposed inset the handler throws and changes nothing; otherwise `refreshing`, `waitingToRest` and `shouldIncreaseContentInset` become false, `returningToTop` tells whether a destination exists, and a destination brings exactly one `scrollTo` and a fresh safety timer that replaces the pending one |
| Component.RefreshableScrollView.TimerFires | RefreshableScrollView.js:394-397 | the firing timer clears the handle and sets `returningToTop` false; nothing else in the state changes |
| Component.AtMostOneSafetyTimer | RefreshableScrollView.js:393-397 | at most one safety timer is ever pending, and it is the one the handle names |
| Component.RestorationNeverScrolls | RefreshableScrollView.js:356-379 | in every reachable state restoration never scrolls, and it throws exactly when no inset is configured |
| Component.ExposedInsetIsConfigured | RefreshableScrollView.js:153 | in every reachable state the scroll view is handed the configured inset |
| Scenarios.PullPastThreshold | RefreshableScrollView.js:218-275 | a laid-out indicator of height 60, a touch and a pull of 130 give progress 1; in continuous mode this starts exactly one refresh, and in release-to-refresh mode none |
| Scenarios.ReleaseStartsRefresh | RefreshableScrollView.js:284-339 | releasing a complete pull twice starts exactly one refresh; ending it while still overscrolled waits to rest without scrolling |
| Scenarios.SettleAfterRefresh | RefreshableScrollView.js:305-319 | for any reachable view with an inset configured that waits to rest untouched, momentum end followed by the next frame ends every phase without a scroll or a TypeError |
| Scenarios.ContinuousRefreshStartsOnScroll | RefreshableScrollView.js:250-272 | pulling further after a refresh has started starts no second one |
| Scenarios.PartialPullDoesNotStart | RefreshableScrollView.js:229-272 | a pull of 90 against a threshold of 120 gives progress 0.75 and no refresh |
| Scenarios.EndTwiceEqualsEndOnce | RefreshableScrollView.js:321-339 | in a reachable state a second done call right after the first leaves the state as the first left it |
| Scenarios.LateEndInReleaseModeWaits | RefreshableScrollView.js:321-333 | in release-to-refresh mode a done call with no refresh running, during a touch, puts the view into waiting-to-rest and reactivates the indicator |
| Scenarios.ZeroDistanceStartsAtRest | RefreshableScrollView.js:232-272 | in continuous mode, with an explicit distance of 0 and no laid-out indicator, a touch and a scroll event at rest start a refresh |
| Scenarios.RestoreWithoutConfiguredInsetThrows | RefreshableScrollView.js:321-366 | with no inset configured, a done call that does not wait ends the refresh and then throws a TypeError |

## Left out

- Rendering, indicator styles and the `StyleSheet` tables (lines 112-177 and 405-420) are presentation. `active` and `pointerEvents` are kept as the one-line predicates `ViewState.IsRefreshIndicatorActive` and `ViewState.PointerEventsBlocked`.
- The forwarding of `onScroll`, `onResponderGrant`, `onResponderRelease` and `onMomentumScrollEnd` to user callbacks is left out. These are foreign code.
- `getScrollResponder` and `setNativeProps` are left out. They are thin delegations to the native view.
- `shouldComponentUpdate` is left out. It is a render optimisation with no effect on state.
- Mixins, the clock and the 300 ms duration are left out. Timers and animation frames are discrete steps the environment may take in any order, with no time attached.
- Timer cleanup on unmount is left out, because the model has no unmount.
- Floating point is modelled as exact real arithmetic. A missing pull-axis side of the exposed inset, `null` or `undefined`, gives an undefined reserved extent and so no destination: with `undefined` the source computes NaN, which compares false with everything, and with `null` it computes minus the configured side, which is 0 while the exposed inset is the configured one, as it is in every reachable state. A `null` side of an exposed inset other than the configured one is not distinguished from `undefined`. A NaN inset or offset from the platform is not modelled.
- Props are fixed at construction. A re-render with new props is not modelled.
- A thrown TypeError is modelled as the handler stopping with the state it had. Its propagation into the host is not modelled.
- Component.RefreshableScrollView.ExposedInset: the inset the scroll view holds is recomputed from the current state and adjustment rather than kept from the last render. A scroll that changes no state updates the adjustment without a render, so the two could differ while room is reserved. No reachable state reserves room, so reachable behaviour is the same.
- The done callback handed to `onRefreshStart` is modelled as `OnRefreshEnd`. The caller may call it at any time after the first refresh start.
- Component.RefreshableScrollView.OnRefreshEnd: phase exclusivity is ensured only from states where `refreshing` is set or `returningToTop` is not. A done call in release-to-refresh mode during `returningToTop` sets `waitingToRest` beside it. That state is unreachable, because `returningToTop` is never set.
