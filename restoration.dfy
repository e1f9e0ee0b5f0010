/** The destination arithmetic of `restoreScrollView`: whether, and where,
    to scroll so that the room reserved for the indicator scrolls away. */
module Restoration {
  import opened Geometry
  import opened Progress

  /** What restoring the scroll position does.
      `ExposedInsetMissing`: the scroll view was handed no `contentInset`,
      so reading its pull-axis side throws a TypeError and the handler stops.
      `AtRest`: nothing to scroll. `ScrollTo`: scroll to `destination`. */
  datatype Restoration = ExposedInsetMissing | AtRest | ScrollTo(destination: Point)

  /** The part of the exposed pull-axis inset that is not configured inset:
      the room reserved for the indicator. `None` stands for a missing
      side, `null` or `undefined`, and gives no destination: `undefined - n`
      is NaN, which compares false with everything; `null - n` is `-n`,
      which is 0 whenever the exposed inset is the configured one (its
      `null` side makes `n` 0), as it is in every reachable state. */
  function ReservedExtent(orientation: Orientation, configured: Option<PartialInset>,
                          exposed: PartialInset): Option<real> {
    var side := orientation.PrimarySide();
    if exposed.Get(side).Some?
    then Some(exposed.Get(side).value - ConfiguredOrZero(configured, side))
    else None
  }

  /** How far the view has scrolled away from its inset edge:
      reported axis inset plus axis offset. */
  function ScrolledDistance(orientation: Orientation, offset: Point, inset: Inset): real {
    inset.Get(orientation.PrimarySide()) + PrimaryOffset(orientation, offset)
  }

  /** The restoration target: a scroll exists iff room is reserved and it
      exceeds the scrolled distance; the target then moves the pull-axis
      offset to `min(offset, -inset) + reserved` and keeps the other axis. */
  function ScrollDestination(orientation: Orientation, configured: Option<PartialInset>,
                             exposed: Option<PartialInset>, offset: Point, inset: Inset): (r: Restoration)
    ensures r.ExposedInsetMissing? <==> exposed.None?
    ensures r.ScrollTo? <==>
      && exposed.Some?
      && ReservedExtent(orientation, configured, exposed.value).Some?
      && var reserved := ReservedExtent(orientation, configured, exposed.value).value;
         reserved > 0.0 && reserved > ScrolledDistance(orientation, offset, inset)
    ensures r.ScrollTo? ==>
      && PrimaryOffset(orientation, r.destination)
         == Min(PrimaryOffset(orientation, offset), -inset.Get(orientation.PrimarySide()))
            + ReservedExtent(orientation, configured, exposed.value).value
      && SecondaryOffset(orientation, r.destination) == SecondaryOffset(orientation, offset)
  {
    if exposed.None? then
      ExposedInsetMissing
    else
      var reserved := ReservedExtent(orientation, configured, exposed.value);
      var scrolled := ScrolledDistance(orientation, offset, inset);
      if reserved.Some? && reserved.value > 0.0 && reserved.value > scrolled then
        var target := Min(PrimaryOffset(orientation, offset), -inset.Get(orientation.PrimarySide()))
                      + reserved.value;
        ScrollTo(if orientation.Horizontal? then Point(target, offset.y) else Point(offset.x, target))
      else
        AtRest
  }

  /** A restoration scroll always moves the content forward: by the whole
      reserved extent while overscrolled, and otherwise by what is left of
      it after the distance already scrolled. */
  lemma DestinationAdvance(orientation: Orientation, configured: Option<PartialInset>,
                           exposed: Option<PartialInset>, offset: Point, inset: Inset)
    requires ScrollDestination(orientation, configured, exposed, offset, inset).ScrollTo?
    ensures
      var destination := ScrollDestination(orientation, configured, exposed, offset, inset).destination;
      var reserved := ReservedExtent(orientation, configured, exposed.value).value;
      var advance := PrimaryOffset(orientation, destination) - PrimaryOffset(orientation, offset);
      && advance > 0.0
      && advance == if IsOverscrolled(orientation, offset, inset) then reserved
                    else reserved - ScrolledDistance(orientation, offset, inset)
  {
  }

  /** Once there, the view has scrolled exactly the reserved extent away
      from its inset edge, unless it was overscrolled; in that case it is
      still short of it by the overscroll. */
  lemma DestinationUncoversReserve(orientation: Orientation, configured: Option<PartialInset>,
                                   exposed: Option<PartialInset>, offset: Point, inset: Inset)
    requires ScrollDestination(orientation, configured, exposed, offset, inset).ScrollTo?
    ensures
      var destination := ScrollDestination(orientation, configured, exposed, offset, inset).destination;
      var reserved := ReservedExtent(orientation, configured, exposed.value).value;
      var before := ScrolledDistance(orientation, offset, inset);
      var after := ScrolledDistance(orientation, destination, inset);
      && after <= reserved
      && (after == reserved <==> !IsOverscrolled(orientation, offset, inset))
      && (IsOverscrolled(orientation, offset, inset) ==> after == reserved + before)
  {
  }

  /** When the scroll view is handed the configured inset itself, nothing is
      reserved: restoration either throws (no inset configured) or stays put. */
  lemma NoScrollWithoutReservation(orientation: Orientation, configured: Option<PartialInset>,
                                   offset: Point, inset: Inset)
    ensures !ScrollDestination(orientation, configured, configured, offset, inset).ScrollTo?
    ensures ScrollDestination(orientation, configured, configured, offset, inset).ExposedInsetMissing?
            <==> configured.None?
  {
    if configured.Some? {
      var reserved := ReservedExtent(orientation, configured, configured.value);
      assert reserved.Some? ==> reserved.value == 0.0;
    }
  }
}
