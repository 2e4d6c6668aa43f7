/**
 * The draggable, resizable application window (assets/components/DraggableWindow.tsx).
 *
 * The component's React state becomes the fields of class `DraggableWindow`;
 * each event handler becomes a method.  Pointer coordinates and the viewport
 * size are parameters.  The window's bounding rectangle is its position plus
 * its size.
 */
module Window {
  import opened Wrappers

  datatype Point = Point(x: int, y: int)
  datatype Size = Size(width: int, height: int)
  datatype Box = Box(pos: Point, size: Size)

  /** The eight resize handles. */
  datatype Direction = N | S | E | W | NE | NW | SE | SW

  /** The handle name contains the letter 'e'. */
  predicate HasEast(d: Direction) { d == E || d == NE || d == SE }
  /** The handle name contains the letter 'w'. */
  predicate HasWest(d: Direction) { d == W || d == NW || d == SW }
  /** The handle name contains the letter 's'. */
  predicate HasSouth(d: Direction) { d == S || d == SE || d == SW }
  /** The handle name contains the letter 'n'. */
  predicate HasNorth(d: Direction) { d == N || d == NE || d == NW }

  /** Height kept free for the dock when a window goes fullscreen. */
  const DockHeight: int := 50

  /** Default construction arguments. */
  const DefaultPosition := Point(50, 50)
  const DefaultSize := Size(600, 500)
  const DefaultMinSize := Size(300, 200)

  function Max(a: int, b: int): int { if a >= b then a else b }

  // -------------------------------------------------------------------------
  // Resize geometry

  /**
   * One axis of a resize.  `grow` is the east/south rule (the far edge follows
   * the pointer), `shrink` the west/north rule (the near edge follows the
   * pointer).  The handle never names both, and an axis it does not name keeps
   * its start values.  On the near-edge rule the start coordinate moves by the
   * full delta unless the length came out equal to the start length: it is
   * not held back when the length hits its floor.
   */
  function AxisResize(grow: bool, shrink: bool, origin: int, start: int, min: int, delta: int): (r: (int, int))
    requires !(grow && shrink)
    ensures grow || shrink ==> r.1 >= min
    ensures !grow && !shrink ==> r == (origin, start)
  {
    if grow then (origin, Max(min, start + delta))
    else if shrink then
      var len := Max(min, start - delta);
      (if start - len == 0 then origin else origin + delta, len)
    else (origin, start)
  }

  /**
   * The window geometry a resize gesture produces, from the position and size
   * at the start of the gesture and the pointer's travel `(dx, dy)` since then.
   */
  function Resized(d: Direction, origin: Point, start: Size, min: Size, dx: int, dy: int): (r: Box)
    ensures (HasEast(d) || HasWest(d)) ==> r.size.width >= min.width
    ensures (HasNorth(d) || HasSouth(d)) ==> r.size.height >= min.height
    ensures !HasEast(d) && !HasWest(d) ==> r.size.width == start.width && r.pos.x == origin.x
    ensures !HasNorth(d) && !HasSouth(d) ==> r.size.height == start.height && r.pos.y == origin.y
  {
    var (x, w) := AxisResize(HasEast(d), HasWest(d), origin.x, start.width, min.width, dx);
    var (y, h) := AxisResize(HasSouth(d), HasNorth(d), origin.y, start.height, min.height, dy);
    Box(Point(x, y), Size(w, h))
  }

  /** East (and the east half of a corner): width follows the pointer down to the floor; x stays. */
  lemma EastResize(d: Direction, origin: Point, start: Size, min: Size, dx: int, dy: int)
    requires HasEast(d)
    ensures Resized(d, origin, start, min, dx, dy).size.width == Max(min.width, start.width + dx)
    ensures Resized(d, origin, start, min, dx, dy).pos.x == origin.x
  {
  }

  /** South (and the south half of a corner): height follows the pointer down to the floor; y stays. */
  lemma SouthResize(d: Direction, origin: Point, start: Size, min: Size, dx: int, dy: int)
    requires HasSouth(d)
    ensures Resized(d, origin, start, min, dx, dy).size.height == Max(min.height, start.height + dy)
    ensures Resized(d, origin, start, min, dx, dy).pos.y == origin.y
  {
  }

  /**
   * West: width is `max(minWidth, startWidth - dx)`; x stays put exactly when
   * the width equals the start width, and otherwise moves by the full `dx`.
   */
  lemma WestResize(d: Direction, origin: Point, start: Size, min: Size, dx: int, dy: int)
    requires HasWest(d)
    ensures var r := Resized(d, origin, start, min, dx, dy);
      r.size.width == Max(min.width, start.width - dx)
      && r.pos.x == (if r.size.width == start.width then origin.x else origin.x + dx)
  {
  }

  /** North mirrors west on the height and y. */
  lemma NorthResize(d: Direction, origin: Point, start: Size, min: Size, dx: int, dy: int)
    requires HasNorth(d)
    ensures var r := Resized(d, origin, start, min, dx, dy);
      r.size.height == Max(min.height, start.height - dy)
      && r.pos.y == (if r.size.height == start.height then origin.y else origin.y + dy)
  {
  }

  /** While the floor is not hit, a west resize keeps the right edge where it was. */
  lemma WestKeepsRightEdge(d: Direction, origin: Point, start: Size, min: Size, dx: int, dy: int)
    requires HasWest(d) && start.width - dx >= min.width
    ensures var r := Resized(d, origin, start, min, dx, dy);
      r.pos.x + r.size.width == origin.x + start.width
  {
  }

  /** While the floor is not hit, a north resize keeps the bottom edge where it was. */
  lemma NorthKeepsBottomEdge(d: Direction, origin: Point, start: Size, min: Size, dx: int, dy: int)
    requires HasNorth(d) && start.height - dy >= min.height
    ensures var r := Resized(d, origin, start, min, dx, dy);
      r.pos.y + r.size.height == origin.y + start.height
  {
  }

  /**
   * Once the width is clamped to the floor (and the floor differs from the
   * start width), x still moves by the full delta, so the right edge drifts
   * right by the overshoot `minWidth - (startWidth - dx)`.
   */
  lemma WestClampedStillMoves(d: Direction, origin: Point, start: Size, min: Size, dx: int, dy: int)
    requires HasWest(d) && start.width - dx < min.width && min.width != start.width
    ensures var r := Resized(d, origin, start, min, dx, dy);
      r.size.width == min.width
      && r.pos.x == origin.x + dx
      && r.pos.x + r.size.width == origin.x + start.width + (min.width - (start.width - dx))
  {
  }

  /**
   * The west-edge example: start x 100, width 400, floor 300, pointer moved
   * 150 right.  The width stops at 300 and x becomes 250 (not 200, which would
   * keep the right edge at 500).
   */
  lemma WestClampExample()
    ensures Resized(W, Point(100, 0), Size(400, 300), Size(300, 200), 150, 0)
      == Box(Point(250, 0), Size(300, 300))
  {
  }

  /** Corner handles treat the two axes independently: the width and x do not depend on the vertical travel, nor the height and y on the horizontal. */
  lemma AxesIndependent(d: Direction, origin: Point, start: Size, min: Size, dx: int, dy: int, dx': int, dy': int)
    ensures Resized(d, origin, start, min, dx, dy).size.width == Resized(d, origin, start, min, dx, dy').size.width
    ensures Resized(d, origin, start, min, dx, dy).pos.x == Resized(d, origin, start, min, dx, dy').pos.x
    ensures Resized(d, origin, start, min, dx, dy).size.height == Resized(d, origin, start, min, dx', dy).size.height
    ensures Resized(d, origin, start, min, dx, dy).pos.y == Resized(d, origin, start, min, dx', dy).pos.y
  {
  }

  // -------------------------------------------------------------------------
  // Keeping the window inside the viewport

  /**
   * One axis of the viewport re-clamp: a window whose far edge is past the
   * limit is moved back so that the edge sits on the limit, and one whose near
   * edge is negative is moved to 0 (that rule wins when both apply).
   */
  function ClampAxis(p: int, len: int, limit: int): (r: int)
    ensures 0 <= p && p + len <= limit ==> r == p
    ensures p < 0 ==> r == 0
    ensures 0 <= p && p + len > limit ==> r + len == limit
    ensures len <= limit ==> 0 <= r && r + len <= limit
  {
    if p < 0 then 0 else if p + len > limit then limit - len else p
  }

  /**
   * The position after a viewport resize to `vw` x `vh`: a window that fits
   * the viewport ends up wholly inside it, and one already inside does not move.
   */
  function Reclamped(pos: Point, size: Size, vw: int, vh: int): (p: Point)
    ensures size.width <= vw && size.height <= vh ==>
      0 <= p.x && p.x + size.width <= vw && 0 <= p.y && p.y + size.height <= vh
    ensures 0 <= pos.x && pos.x + size.width <= vw && 0 <= pos.y && pos.y + size.height <= vh ==> p == pos
    ensures pos.x < 0 ==> p.x == 0
    ensures pos.y < 0 ==> p.y == 0
  {
    Point(ClampAxis(pos.x, size.width, vw), ClampAxis(pos.y, size.height, vh))
  }

  // -------------------------------------------------------------------------
  // Cursor

  datatype Cursor = NsResize | EwResize | NeswResize | NwseResize | Grabbing | Default

  /** The handle on the opposite side of the window. */
  function Opposite(d: Direction): Direction {
    match d
    case N => S case S => N case E => W case W => E
    case NE => SW case SW => NE case NW => SE case SE => NW
  }

  /** `getCursor`: `None` stands for any string that names no handle. */
  function CursorFor(d: Option<Direction>, isDragging: bool): (c: Cursor)
    ensures d.Some? ==> c != Grabbing && c != Default
    ensures d.None? ==> (c == Grabbing <==> isDragging) && (c == Default <==> !isDragging)
  {
    match d
    case Some(N) => NsResize case Some(S) => NsResize
    case Some(E) => EwResize case Some(W) => EwResize
    case Some(NE) => NeswResize case Some(SW) => NeswResize
    case Some(NW) => NwseResize case Some(SE) => NwseResize
    case None => if isDragging then Grabbing else Default
  }

  /** Opposite handles show the same resize cursor, and no handle shows a drag cursor. */
  lemma CursorSymmetric(d: Direction, isDragging: bool)
    ensures CursorFor(Some(d), isDragging) == CursorFor(Some(Opposite(d)), isDragging)
    ensures CursorFor(Some(d), isDragging) != Grabbing && CursorFor(Some(d), isDragging) != Default
    ensures Opposite(Opposite(d)) == d
  {
  }

  // -------------------------------------------------------------------------
  // The window

  class DraggableWindow {
    var position: Point
    var size: Size
    const minSize: Size
    var isDragging: bool
    var isResizing: bool
    var resizeDirection: Option<Direction>
    var dragOffset: Point
    /** Pointer position and window size recorded when a resize starts. */
    var resizeStartPointer: Point
    var resizeStartSize: Size
    /**
     * The position the pointer-move listener sees during a resize: the
     * listener is registered when the resize flag turns on and keeps the
     * position of that moment until the gesture ends.
     */
    var resizeOrigin: Point
    var isFullscreen: bool
    var preFullscreen: Box

    /** A direction is recorded exactly while a resize is in progress. */
    ghost predicate Valid()
      reads this
    {
      isResizing <==> resizeDirection.Some?
    }

    constructor (initialPosition: Point, width: int, height: int, minWidth: int, minHeight: int)
      ensures Valid()
      ensures position == initialPosition && size == Size(width, height)
      ensures minSize == Size(minWidth, minHeight)
      ensures !isDragging && !isResizing && !isFullscreen
      ensures preFullscreen == Box(initialPosition, Size(width, height))
    {
      position := initialPosition;
      size := Size(width, height);
      minSize := Size(minWidth, minHeight);
      isDragging, isResizing, isFullscreen := false, false, false;
      resizeDirection := None;
      dragOffset := Point(0, 0);
      resizeStartPointer := Point(0, 0);
      resizeStartSize := Size(0, 0);
      resizeOrigin := initialPosition;
      preFullscreen := Box(initialPosition, Size(width, height));
    }

    /** Pointer down on the window: only a press inside the title bar starts a drag. */
    method MouseDown(onTitleBar: bool, pointer: Point)
      requires Valid()
      modifies this
      ensures Valid()
      ensures onTitleBar ==>
        (isDragging && dragOffset == Point(pointer.x - old(position.x), pointer.y - old(position.y)))
      ensures !onTitleBar ==> isDragging == old(isDragging) && dragOffset == old(dragOffset)
      ensures position == old(position) && size == old(size)
      ensures isResizing == old(isResizing) && resizeDirection == old(resizeDirection)
      ensures isFullscreen == old(isFullscreen) && preFullscreen == old(preFullscreen)
      ensures resizeStartPointer == old(resizeStartPointer) && resizeStartSize == old(resizeStartSize)
      ensures resizeOrigin == old(resizeOrigin)
    {
      if onTitleBar {
        isDragging := true;
        dragOffset := Point(pointer.x - position.x, pointer.y - position.y);
      }
    }

    /**
     * Pointer down on a resize handle.  The event does not propagate to the
     * window, so the drag flag is left as it was.
     */
    method ResizeStart(d: Direction, pointer: Point)
      requires Valid()
      modifies this
      ensures Valid()
      ensures isResizing && resizeDirection == Some(d)
      ensures resizeStartPointer == pointer && resizeStartSize == old(size)
      ensures resizeOrigin == old(position)
      ensures isDragging == old(isDragging) && dragOffset == old(dragOffset)
      ensures position == old(position) && size == old(size)
      ensures isFullscreen == old(isFullscreen) && preFullscreen == old(preFullscreen)
    {
      isResizing := true;
      resizeDirection := Some(d);
      resizeStartPointer := pointer;
      resizeStartSize := size;
      resizeOrigin := position;
    }

    /** Pointer move: drag to pointer minus offset, or resize from the start snapshot, or nothing. */
    method MouseMove(pointer: Point)
      requires Valid()
      modifies this
      ensures Valid()
      ensures isDragging == old(isDragging) && isResizing == old(isResizing)
      ensures old(isDragging) ==>
        position == Point(pointer.x - dragOffset.x, pointer.y - dragOffset.y) && size == old(size)
      ensures !old(isDragging) && old(isResizing) ==>
        Box(position, size) == Resized(resizeDirection.value, resizeOrigin, resizeStartSize, minSize,
                                       pointer.x - resizeStartPointer.x, pointer.y - resizeStartPointer.y)
      ensures !old(isDragging) && !old(isResizing) ==> position == old(position) && size == old(size)
      ensures resizeDirection == old(resizeDirection) && dragOffset == old(dragOffset)
      ensures resizeStartPointer == old(resizeStartPointer) && resizeStartSize == old(resizeStartSize)
      ensures resizeOrigin == old(resizeOrigin)
      ensures isFullscreen == old(isFullscreen) && preFullscreen == old(preFullscreen)
    {
      if isDragging {
        position := Point(pointer.x - dragOffset.x, pointer.y - dragOffset.y);
      } else if isResizing && resizeDirection.Some? {
        var d := resizeDirection.value;
        var deltaX := pointer.x - resizeStartPointer.x;
        var deltaY := pointer.y - resizeStartPointer.y;
        var newWidth := resizeStartSize.width;
        var newHeight := resizeStartSize.height;
        var newX := resizeOrigin.x;
        var newY := resizeOrigin.y;
        if HasEast(d) {
          newWidth := Max(minSize.width, resizeStartSize.width + deltaX);
        }
        if HasSouth(d) {
          newHeight := Max(minSize.height, resizeStartSize.height + deltaY);
        }
        if HasWest(d) {
          newWidth := Max(minSize.width, resizeStartSize.width - deltaX);
          newX := if resizeStartSize.width - newWidth == 0 then resizeOrigin.x else resizeOrigin.x + deltaX;
        }
        if HasNorth(d) {
          newHeight := Max(minSize.height, resizeStartSize.height - deltaY);
          newY := if resizeStartSize.height - newHeight == 0 then resizeOrigin.y else resizeOrigin.y + deltaY;
        }
        size := Size(newWidth, newHeight);
        position := Point(newX, newY);
      }
    }

    /** Pointer up anywhere: every gesture ends. */
    method MouseUp()
      requires Valid()
      modifies this
      ensures Valid()
      ensures !isDragging && !isResizing && resizeDirection == None
      ensures position == old(position) && size == old(size) && dragOffset == old(dragOffset)
      ensures isFullscreen == old(isFullscreen) && preFullscreen == old(preFullscreen)
      ensures resizeStartPointer == old(resizeStartPointer) && resizeStartSize == old(resizeStartSize) && resizeOrigin == old(resizeOrigin)
    {
      isDragging := false;
      isResizing := false;
      resizeDirection := None;
    }

    /** Viewport resize: move (never resize) the window back inside the viewport. */
    method ViewportResize(viewportWidth: int, viewportHeight: int)
      requires Valid()
      modifies this
      ensures Valid()
      ensures position == Reclamped(old(position), old(size), viewportWidth, viewportHeight)
      ensures size == old(size)
      ensures isDragging == old(isDragging) && isResizing == old(isResizing)
      ensures resizeDirection == old(resizeDirection) && dragOffset == old(dragOffset)
      ensures isFullscreen == old(isFullscreen) && preFullscreen == old(preFullscreen)
      ensures resizeStartPointer == old(resizeStartPointer) && resizeStartSize == old(resizeStartSize) && resizeOrigin == old(resizeOrigin)
    {
      var right := position.x + size.width;
      var bottom := position.y + size.height;
      var newX := position.x;
      var newY := position.y;
      if right > viewportWidth {
        newX := viewportWidth - size.width;
      }
      if position.x < 0 {
        newX := 0;
      }
      if bottom > viewportHeight {
        newY := viewportHeight - size.height;
      }
      if position.y < 0 {
        newY := 0;
      }
      if newX != position.x || newY != position.y {
        position := Point(newX, newY);
      }
    }

    /**
     * Fullscreen toggle.  Entering saves the current geometry and fills the
     * viewport above the dock; leaving restores the saved geometry.
     */
    method ToggleFullscreen(viewportWidth: int, viewportHeight: int)
      requires Valid()
      modifies this
      ensures Valid()
      ensures isFullscreen == !old(isFullscreen)
      ensures old(isFullscreen) ==>
        Box(position, size) == old(preFullscreen) && preFullscreen == old(preFullscreen)
      ensures !old(isFullscreen) ==>
        preFullscreen == Box(old(position), old(size))
        && position == Point(0, 0) && size == Size(viewportWidth, viewportHeight - DockHeight)
      ensures isDragging == old(isDragging) && isResizing == old(isResizing)
      ensures resizeDirection == old(resizeDirection) && dragOffset == old(dragOffset)
      ensures resizeStartPointer == old(resizeStartPointer) && resizeStartSize == old(resizeStartSize) && resizeOrigin == old(resizeOrigin)
    {
      if isFullscreen {
        position := preFullscreen.pos;
        size := preFullscreen.size;
        isFullscreen := false;
      } else {
        preFullscreen := Box(position, size);
        position := Point(0, 0);
        size := Size(viewportWidth, viewportHeight - DockHeight);
        isFullscreen := true;
      }
    }
  }

  /** Toggling fullscreen twice returns the window to exactly its earlier geometry. */
  method ToggleTwiceRestores(w: DraggableWindow, viewportWidth: int, viewportHeight: int)
    requires w.Valid() && !w.isFullscreen
    modifies w
    ensures w.Valid() && !w.isFullscreen
    ensures w.position == old(w.position) && w.size == old(w.size)
  {
    w.ToggleFullscreen(viewportWidth, viewportHeight);
    w.ToggleFullscreen(viewportWidth, viewportHeight);
  }

  /**
   * Dragging by the title bar: pressing at `p0` and moving to `p1` puts the
   * window at its old position plus the pointer's travel.
   */
  method DragFollowsPointer(w: DraggableWindow, p0: Point, p1: Point)
    requires w.Valid()
    modifies w
    ensures w.Valid()
    ensures w.position == Point(old(w.position.x) + p1.x - p0.x, old(w.position.y) + p1.y - p0.y)
    ensures w.size == old(w.size)
  {
    w.MouseDown(true, p0);
    w.MouseMove(p1);
  }

  /** Every resize gesture, however far the pointer travels, leaves each dimension its handle names at or above the floor. */
  method ResizeRespectsFloor(w: DraggableWindow, d: Direction, p0: Point, p1: Point)
    requires w.Valid() && !w.isDragging
    modifies w
    ensures w.Valid()
    ensures (HasEast(d) || HasWest(d)) ==> w.size.width >= w.minSize.width
    ensures (HasNorth(d) || HasSouth(d)) ==> w.size.height >= w.minSize.height
  {
    w.ResizeStart(d, p0);
    w.MouseMove(p1);
  }
}
