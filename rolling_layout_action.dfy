/**
 * The public contract of the rolling layout: the orientation constants, the
 * integer width of its settings, and the shapes of the two callbacks it makes.
 */
module RollingLayoutAction {
  import opened Wrappers

  /** A Java `int`. Times and orientation codes are passed as this type. */
  newtype int32 = x: int | -0x8000_0000 <= x < 0x8000_0000

  /** Orientation codes: top to bottom, bottom to top, left to right, right to left. */
  const UP_DOWN: int32 := 1001
  const DOWN_UP: int32 := 1002
  const LEFT_RIGHT: int32 := 2001
  const RIGHT_LEFT: int32 := 2002

  /** The four values the `@Orientation` annotation admits, as a closed type. */
  datatype Orientation = UpDown | DownUp | LeftRight | RightLeft

  /**
   * True exactly for the four codes named by the `@Orientation` annotation,
   * that is, for the codes of the four orientations.
   */
  predicate IsOrientationCode(code: int32)
    ensures IsOrientationCode(code) <==> exists o :: Code(o) == code
  {
    assert Code(UpDown) == UP_DOWN && Code(DownUp) == DOWN_UP;
    assert Code(LeftRight) == LEFT_RIGHT && Code(RightLeft) == RIGHT_LEFT;
    code == UP_DOWN || code == DOWN_UP || code == LEFT_RIGHT || code == RIGHT_LEFT
  }

  /** The integer constant that stands for an orientation. */
  function Code(o: Orientation): (c: int32)
    ensures c == UP_DOWN || c == DOWN_UP || c == LEFT_RIGHT || c == RIGHT_LEFT
  {
    match o
    case UpDown => UP_DOWN
    case DownUp => DOWN_UP
    case LeftRight => LEFT_RIGHT
    case RightLeft => RIGHT_LEFT
  }

  /** Reads an integer as an orientation; any code outside the annotation gives None. */
  function FromCode(code: int32): (r: Option<Orientation>)
    ensures r.Some? <==> IsOrientationCode(code)
    ensures r.Some? ==> Code(r.value) == code
  {
    if code == UP_DOWN then Some(UpDown)
    else if code == DOWN_UP then Some(DownUp)
    else if code == LEFT_RIGHT then Some(LeftRight)
    else if code == RIGHT_LEFT then Some(RightLeft)
    else None
  }

  /** Decoding an orientation's own code gives the orientation back. */
  lemma CodeRoundTrip(o: Orientation)
    ensures FromCode(Code(o)) == Some(o)
  {
  }

  /** The four constants are pairwise distinct. */
  lemma CodesDistinct(o1: Orientation, o2: Orientation)
    requires o1 != o2
    ensures Code(o1) != Code(o2)
  {
  }

  /**
   * A duration in milliseconds. Each-time (the length of one slide) and pause
   * time (the interval between slides) are both measured in this unit; nothing
   * constrains their sign.
   */
  type Millis = int32

  /** An opaque child view. */
  datatype ViewId = ViewId(id: nat)

  /** The identities of registered listeners; a listener is never null. */
  datatype ChangedListener = ChangedListener(id: nat)
  datatype ItemClickListener = ItemClickListener(id: nat)

  /**
   * One `onRollingChanged` call, made to `listener`: the rolling layout, the
   * current position of the rolling list and the total count of the list.
   */
  datatype RollingChanged<L> =
    RollingChanged(listener: ChangedListener, rollingLayout: L, currentPosition: int, sumPosition: int)

  /**
   * One `onRollingItemClick` call, made to `listener`: the item view (None
   * where the framework hands over null), the parent layout and the clicked
   * position.
   */
  datatype RollingItemClick<L> =
    RollingItemClick(listener: ItemClickListener, view: Option<ViewId>, parent: L, position: int)
}
