/** Value types shared by the refreshable scroll view: insets, offsets, the
    scroll orientation, and JavaScript's handling of `null`/`undefined`
    numbers in the few places the component relies on it.
    JavaScript numbers are modelled as `real`. */
module Geometry {

  /** A value that may be `null` or `undefined` in the component. */
  datatype Option<+T> = None | Some(value: T)

  /** The `horizontal` prop: which axis the pull gesture runs along. */
  datatype Orientation = Vertical | Horizontal {

    /** The inset side that lies along the pull axis (`top` or `left`). */
    function PrimarySide(): Side {
      if Horizontal? then Left else Top
    }
  }

  /** The four keys of a content-inset object, in the order the
      adjustment object declares them. */
  datatype Side = Top | Left | Bottom | Right

  const SIDES: seq<Side> := [Top, Left, Bottom, Right]

  /** A content inset whose every side is a number: what the native scroll
      view reports in a scroll event, and the adjustment vector. */
  datatype Inset = Inset(top: real, left: real, bottom: real, right: real) {

    function Get(side: Side): real {
      match side
      case Top => top
      case Left => left
      case Bottom => bottom
      case Right => right
    }

    /** The same inset with one side replaced (`inset[side] = v`). */
    function With(side: Side, v: real): (r: Inset)
      ensures r.Get(side) == v
      ensures forall other :: other != side ==> r.Get(other) == Get(other)
    {
      match side
      case Top => this.(top := v)
      case Left => this.(left := v)
      case Bottom => this.(bottom := v)
      case Right => this.(right := v)
    }
  }

  const ZERO_INSET: Inset := Inset(0.0, 0.0, 0.0, 0.0)

  /** A `contentInset` object as a caller configures it: any side may be
      left out (`null`/`undefined`). */
  datatype PartialInset = PartialInset(top: Option<real>, left: Option<real>,
                                       bottom: Option<real>, right: Option<real>) {

    function Get(side: Side): Option<real> {
      match side
      case Top => top
      case Left => left
      case Bottom => bottom
      case Right => right
    }

    function With(side: Side, v: Option<real>): (r: PartialInset)
      ensures r.Get(side) == v
      ensures forall other :: other != side ==> r.Get(other) == Get(other)
    {
      match side
      case Top => this.(top := v)
      case Left => this.(left := v)
      case Bottom => this.(bottom := v)
      case Right => this.(right := v)
    }
  }

  /** `{...contentInset}`: spreading `undefined` yields an object with no sides. */
  function Spread(inset: Option<PartialInset>): PartialInset {
    if inset.Some? then inset.value else PartialInset(None, None, None, None)
  }

  /** `inset && inset[side] != null ? inset[side] : 0` */
  function ConfiguredOrZero(inset: Option<PartialInset>, side: Side): real {
    if inset.Some? && inset.value.Get(side).Some? then inset.value.Get(side).value else 0.0
  }

  /** A `contentOffset` object. */
  datatype Point = Point(x: real, y: real)

  /** The offset coordinate along the pull axis (`y`, or `x` when horizontal). */
  function PrimaryOffset(orientation: Orientation, p: Point): real {
    if orientation.Horizontal? then p.x else p.y
  }

  /** The offset coordinate across the pull axis. */
  function SecondaryOffset(orientation: Orientation, p: Point): real {
    if orientation.Horizontal? then p.y else p.x
  }

  /** A number that may be `null`, as JavaScript arithmetic reads it:
      `null - n` is `-n`. */
  function NullAsZero(n: Option<real>): real {
    if n.Some? then n.value else 0.0
  }

  function Min(a: real, b: real): real {
    if a <= b then a else b
  }

  function Max(a: real, b: real): real {
    if a >= b then a else b
  }
}
