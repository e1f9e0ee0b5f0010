/** Content-inset bookkeeping: how much of the inset the native scroll view
    reports was added by the platform on top of the configured one, and the
    inset the component exposes to the scroll view while it reserves room
    for the refresh indicator. */
module Insets {
  import opened Geometry

  /** What the platform added on one side: the reported inset minus the
      configured one where that side is configured, and 0 otherwise. */
  function SideAdjustment(configured: Option<PartialInset>, native: Inset, side: Side): real {
    if configured.Some? && configured.value.Get(side).Some?
    then native.Get(side) - configured.value.Get(side).value
    else 0.0
  }

  /** The whole adjustment vector, side by side. */
  function NativeAdjustment(configured: Option<PartialInset>, native: Inset): Inset {
    Inset(SideAdjustment(configured, native, Top), SideAdjustment(configured, native, Left),
          SideAdjustment(configured, native, Bottom), SideAdjustment(configured, native, Right))
  }

  /** `calculateNativeContentInsetAdjustment`: fills a zero adjustment
      side by side, in the order the adjustment object lists its keys. */
  method CalculateNativeContentInsetAdjustment(configured: Option<PartialInset>, native: Inset)
    returns (adjustment: Inset)
    ensures configured.None? ==> adjustment == ZERO_INSET
    ensures forall side :: adjustment.Get(side) == SideAdjustment(configured, native, side)
    ensures adjustment == NativeAdjustment(configured, native)
  {
    adjustment := ZERO_INSET;
    if configured.None? {
      return;
    }
    var contentInset := configured.value;
    var i := 0;
    while i < |SIDES|
      invariant 0 <= i <= |SIDES|
      invariant forall side :: side in SIDES[..i] ==> adjustment.Get(side) == SideAdjustment(configured, native, side)
      invariant forall side :: side !in SIDES[..i] ==> adjustment.Get(side) == 0.0
    {
      var side := SIDES[i];
      if contentInset.Get(side).Some? {
        adjustment := adjustment.With(side, native.Get(side) - contentInset.Get(side).value);
      }
      assert SIDES[..i + 1] == SIDES[..i] + [side];
      i := i + 1;
    }
    assert SIDES[..i] == SIDES;
    forall side ensures side in SIDES {
      match side
      case Top => assert SIDES[0] == Top;
      case Left => assert SIDES[1] == Left;
      case Bottom => assert SIDES[2] == Bottom;
      case Right => assert SIDES[3] == Right;
    }
    assert adjustment.Get(Top) == SideAdjustment(configured, native, Top);
    assert adjustment.Get(Left) == SideAdjustment(configured, native, Left);
    assert adjustment.Get(Bottom) == SideAdjustment(configured, native, Bottom);
    assert adjustment.Get(Right) == SideAdjustment(configured, native, Right);
  }

  /** `getContentInsetAdjustedForIndicator`: the inset handed to the scroll
      view. Unchanged while no room is reserved; otherwise a copy whose
      pull-axis side grows to the indicator's far edge, less what the
      platform adds there itself, and never below the configured side. */
  function ContentInsetAdjustedForIndicator(configured: Option<PartialInset>, orientation: Orientation,
                                            shouldIncreaseContentInset: bool,
                                            refreshIndicatorEnd: Option<real>,
                                            adjustment: Option<Inset>): (r: Option<PartialInset>)
    requires shouldIncreaseContentInset ==> adjustment.Some?
    ensures !shouldIncreaseContentInset ==> r == configured
    ensures shouldIncreaseContentInset ==> r.Some?
    ensures shouldIncreaseContentInset ==>
      forall side :: side != orientation.PrimarySide() ==> r.value.Get(side) == Spread(configured).Get(side)
    ensures shouldIncreaseContentInset ==>
      var reserved := r.value.Get(orientation.PrimarySide());
      && reserved.Some?
      && reserved.value >= ConfiguredOrZero(configured, orientation.PrimarySide())
      && reserved.value + adjustment.value.Get(orientation.PrimarySide()) >= NullAsZero(refreshIndicatorEnd)
  {
    if !shouldIncreaseContentInset then
      configured
    else
      var side := orientation.PrimarySide();
      var grown := Max(NullAsZero(refreshIndicatorEnd) - adjustment.value.Get(side),
                       ConfiguredOrZero(configured, side));
      Some(Spread(configured).With(side, Some(grown)))
  }

  /** While room is reserved, the pull-axis side is exactly the larger of
      the two candidates: the smallest inset that both keeps the configured
      inset and, with the platform's own addition, uncovers the indicator. */
  lemma ReservedSideIsLeast(configured: Option<PartialInset>, orientation: Orientation,
                            refreshIndicatorEnd: Option<real>, adjustment: Inset, v: real)
    requires v >= ConfiguredOrZero(configured, orientation.PrimarySide())
    requires v + adjustment.Get(orientation.PrimarySide()) >= NullAsZero(refreshIndicatorEnd)
    ensures
      var r := ContentInsetAdjustedForIndicator(configured, orientation, true, refreshIndicatorEnd, Some(adjustment));
      r.value.Get(orientation.PrimarySide()).value <= v
  {
    var side := orientation.PrimarySide();
    var grown := Max(NullAsZero(refreshIndicatorEnd) - adjustment.Get(side), ConfiguredOrZero(configured, side));
    assert Spread(configured).With(side, Some(grown)).Get(side) == Some(grown);
  }
}
