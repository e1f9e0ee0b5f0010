/** The pull-progress computation of `onScroll` and the overscroll test of
    `isOverscrolled`: both read the scroll metrics of the latest scroll
    event along the pull axis. */
module Progress {
  import opened Geometry

  /** How far the content has been dragged past its resting edge:
      `-(axisInset + axisOffset)`, positive while pulled. */
  function PullDistance(orientation: Orientation, inset: Inset, offset: Point): real {
    -(inset.Get(orientation.PrimarySide()) + PrimaryOffset(orientation, offset))
  }

  /** Progress is computed only once a threshold can be derived: an explicit
      `pullToRefreshDistance` (any non-null number, 0 included) or a
      laid-out indicator. */
  predicate Measurable(pullToRefreshDistance: Option<real>, refreshIndicatorEnd: Option<real>) {
    pullToRefreshDistance.Some? || refreshIndicatorEnd.Some?
  }

  /** The distance that counts as a full pull: the explicit distance when it
      is truthy (non-zero), else twice the gap between the indicator's far
      edge and the reported axis inset (a `null` edge reads as 0). */
  function Threshold(orientation: Orientation, pullToRefreshDistance: Option<real>,
                     refreshIndicatorEnd: Option<real>, inset: Inset): real {
    if pullToRefreshDistance.Some? && pullToRefreshDistance.value != 0.0
    then pullToRefreshDistance.value
    else (NullAsZero(refreshIndicatorEnd) - inset.Get(orientation.PrimarySide())) * 2.0
  }

  /** `Math.max(Math.min(v, 1), 0)` */
  function Clamp(v: real): real {
    Max(Min(v, 1.0), 0.0)
  }

  /** The progress `onScroll` computes from a scroll event: 0 when no
      threshold can be derived, 1 when the threshold is not positive, and
      the pull distance over the threshold, clamped to [0, 1], otherwise. */
  function PullProgress(orientation: Orientation, pullToRefreshDistance: Option<real>,
                        refreshIndicatorEnd: Option<real>, inset: Inset, offset: Point): (r: real)
    ensures 0.0 <= r <= 1.0
    ensures !Measurable(pullToRefreshDistance, refreshIndicatorEnd) ==> r == 0.0
    ensures (Measurable(pullToRefreshDistance, refreshIndicatorEnd)
             && Threshold(orientation, pullToRefreshDistance, refreshIndicatorEnd, inset) <= 0.0) ==> r == 1.0
  {
    if !Measurable(pullToRefreshDistance, refreshIndicatorEnd) then
      0.0
    else
      var pullDistance := PullDistance(orientation, inset, offset);
      var threshold := Threshold(orientation, pullToRefreshDistance, refreshIndicatorEnd, inset);
      if threshold > 0.0 then Clamp(pullDistance / threshold) else 1.0
  }

  /** `isOverscrolled`: the content's leading edge still lies before the
      container's, i.e. offset plus reported inset along the axis is
      negative; exactly when the pull distance `onScroll` computes is
      positive. */
  predicate IsOverscrolled(orientation: Orientation, offset: Point, inset: Inset): (overscrolled: bool)
    ensures overscrolled <==> PullDistance(orientation, inset, offset) > 0.0
  {
    PrimaryOffset(orientation, offset) + inset.Get(orientation.PrimarySide()) < 0.0
  }

  /** Between rest and a full pull, progress is the fraction of the
      threshold that has been pulled. */
  lemma ProgressIsFraction(orientation: Orientation, pullToRefreshDistance: Option<real>,
                           refreshIndicatorEnd: Option<real>, inset: Inset, offset: Point)
    requires Measurable(pullToRefreshDistance, refreshIndicatorEnd)
    requires Threshold(orientation, pullToRefreshDistance, refreshIndicatorEnd, inset) > 0.0
    requires 0.0 <= PullDistance(orientation, inset, offset)
             <= Threshold(orientation, pullToRefreshDistance, refreshIndicatorEnd, inset)
    ensures PullProgress(orientation, pullToRefreshDistance, refreshIndicatorEnd, inset, offset)
            == PullDistance(orientation, inset, offset)
               / Threshold(orientation, pullToRefreshDistance, refreshIndicatorEnd, inset)
  {
  }

  /** With a positive threshold, progress reaches 1 exactly when the pull
      distance reaches the threshold. */
  lemma FullPullIff(orientation: Orientation, pullToRefreshDistance: Option<real>,
                    refreshIndicatorEnd: Option<real>, inset: Inset, offset: Point)
    requires Measurable(pullToRefreshDistance, refreshIndicatorEnd)
    requires Threshold(orientation, pullToRefreshDistance, refreshIndicatorEnd, inset) > 0.0
    ensures PullProgress(orientation, pullToRefreshDistance, refreshIndicatorEnd, inset, offset) == 1.0
            <==> PullDistance(orientation, inset, offset)
                 >= Threshold(orientation, pullToRefreshDistance, refreshIndicatorEnd, inset)
  {
  }

  /** With a positive threshold, progress is positive exactly when the view
      is pulled past its resting edge. */
  lemma PositiveProgressIff(orientation: Orientation, pullToRefreshDistance: Option<real>,
                            refreshIndicatorEnd: Option<real>, inset: Inset, offset: Point)
    requires Measurable(pullToRefreshDistance, refreshIndicatorEnd)
    requires Threshold(orientation, pullToRefreshDistance, refreshIndicatorEnd, inset) > 0.0
    ensures PullProgress(orientation, pullToRefreshDistance, refreshIndicatorEnd, inset, offset) > 0.0
            <==> IsOverscrolled(orientation, offset, inset)
  {
  }

  /** For one configuration and one reported inset, pulling further never
      lowers the progress. */
  lemma ProgressMonotonic(orientation: Orientation, pullToRefreshDistance: Option<real>,
                          refreshIndicatorEnd: Option<real>, inset: Inset,
                          nearer: Point, further: Point)
    requires PullDistance(orientation, inset, nearer) <= PullDistance(orientation, inset, further)
    ensures PullProgress(orientation, pullToRefreshDistance, refreshIndicatorEnd, inset, nearer)
            <= PullProgress(orientation, pullToRefreshDistance, refreshIndicatorEnd, inset, further)
  {
  }

  /** An explicit distance of 0 is falsy: once the indicator is laid out it
      behaves exactly as if no distance were configured. */
  lemma ZeroDistanceFallsBack(orientation: Orientation, refreshIndicatorEnd: real,
                              inset: Inset, offset: Point)
    ensures PullProgress(orientation, Some(0.0), Some(refreshIndicatorEnd), inset, offset)
            == PullProgress(orientation, None, Some(refreshIndicatorEnd), inset, offset)
  {
  }

  /** Before the indicator is laid out, an explicit distance of 0 is still
      non-null, so progress is computed against `(null - axisInset) * 2`:
      with a non-negative axis inset that threshold is not positive, and
      progress is 1 whatever the offset. */
  lemma ZeroDistanceBeforeLayout(orientation: Orientation, inset: Inset, offset: Point)
    requires inset.Get(orientation.PrimarySide()) >= 0.0
    ensures PullProgress(orientation, Some(0.0), None, inset, offset) == 1.0
  {
  }

  /** Without an explicit distance and with the indicator's far edge at 60,
      no inset and offset -90: threshold 120, progress 0.75. */
  lemma DerivedThresholdExample()
    ensures PullProgress(Vertical, None, Some(60.0), ZERO_INSET, Point(0.0, -90.0)) == 0.75
  {
  }

  /** An explicit distance of 50 with the same pull of 90: clamped to 1. */
  lemma ExplicitThresholdExample()
    ensures PullProgress(Vertical, Some(50.0), Some(60.0), ZERO_INSET, Point(0.0, -90.0)) == 1.0
  {
  }
}
