/** The pan controller: a drag state machine (a dragging flag and the last pointer
    position) that accumulates pointer deltas into the viewport offset. */
module Pan {

  datatype Point = Point(x: real, y: real)

  function Plus(p: Point, q: Point): Point { Point(p.x + q.x, p.y + q.y) }
  function Minus(p: Point, q: Point): Point { Point(p.x - q.x, p.y - q.y) }

  class PanController {
    /** The accumulated pan translation; unbounded. */
    var position: Point
    /** The pointer position at the last mousedown or dragging mousemove. */
    var prevPosition: Point
    var dragging: bool

    /** How far the offset is ahead of the pointer. A mousemove while dragging
        keeps it, so the offset moves exactly with the pointer. */
    function Grab(): Point
      reads this
    {
      Minus(position, prevPosition)
    }

    constructor ()
      ensures position == Point(0.0, 0.0) && prevPosition == Point(0.0, 0.0) && !dragging
    {
      position := Point(0.0, 0.0);
      prevPosition := Point(0.0, 0.0);
      dragging := false;
    }

    /** Mousedown: start dragging from the pointer. */
    method MouseDown(client: Point)
      modifies this
      ensures dragging && prevPosition == client && position == old(position)
    {
      dragging := true;
      prevPosition := client;
    }

    /** Mouseup: stop dragging; nothing else changes. */
    method MouseUp()
      modifies this
      ensures !dragging && position == old(position) && prevPosition == old(prevPosition)
    {
      dragging := false;
    }

    /** Mouseleave: the same as mouseup. */
    method MouseLeave()
      modifies this
      ensures !dragging && position == old(position) && prevPosition == old(prevPosition)
    {
      dragging := false;
    }

    /** Mousemove: while dragging, add the pointer's delta since the last event to
        the offset and remember the pointer; otherwise change nothing. */
    method MouseMove(client: Point)
      modifies this
      ensures dragging == old(dragging)
      ensures old(dragging) ==> position == Plus(old(position), Minus(client, old(prevPosition)))
                                && prevPosition == client && Grab() == old(Grab())
      ensures !old(dragging) ==> position == old(position) && prevPosition == old(prevPosition)
    {
      if dragging {
        var delta := Minus(client, prevPosition);
        prevPosition := client;
        position := Plus(position, delta);
      }
    }
  }

  /** A drag from (100, 100) through (110, 120) to (130, 145) moves the offset by
      (30, 45); after mouseup, a further move without a mousedown has no effect. */
  method DragExample() returns (moved: Point, afterRelease: Point)
    ensures moved == Point(30.0, 45.0)
    ensures afterRelease == Point(30.0, 45.0)
  {
    var pan := new PanController();
    pan.MouseDown(Point(100.0, 100.0));
    pan.MouseMove(Point(110.0, 120.0));
    pan.MouseMove(Point(130.0, 145.0));
    moved := pan.position;
    pan.MouseUp();
    pan.MouseMove(Point(500.0, 20.0));
    afterRelease := pan.position;
  }

  /** Starting from any state, pressing at a and moving through b to c while
      dragging moves the offset by exactly c - a. */
  method DragTelescopes(pan: PanController, a: Point, b: Point, c: Point) returns (offset: Point)
    modifies pan
    ensures offset == Minus(pan.position, old(pan.position))
    ensures offset == Minus(c, a)
  {
    var start := pan.position;
    pan.MouseDown(a);
    pan.MouseMove(b);
    pan.MouseMove(c);
    offset := Minus(pan.position, start);
  }
}
