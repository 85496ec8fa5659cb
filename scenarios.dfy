/**
  The window's documented behaviour, stated as clients that drive a fresh
  `Window` object through the calls the behaviour is about. What each one
  returns is fixed by its postcondition; the events are counted through
  `changeCount`.
 */
module WindowScenarios {
  import opened WindowSpec
  import opened WindowModel

  /** A 100 by 100 window named "title" at the origin. */
  function SquareProps(): Props {
    Props(Number(0), Some(0), Some(0), None, Some(100), Some(100),
          None, None, None, None, Some("title"), None)
  }

  /** The square window, placed at (100, 100); two change events so far. */
  method PlacedSquare() returns (w: Window)
    ensures fresh(w)
    ensures w.x == 100 && w.y == 100 && w.width == 100 && w.height == 100
    ensures w.mode == Inactive && w.changeCount == 2
  {
    w := new Window(SquareProps());
    w.SetPosition(100, 100);
    w.SetSize(100, 100);
  }

  /** A move grabbed at the origin and dragged to (200, 300) puts the window there. */
  method MoveToPoint() returns (x: int, y: int)
    ensures x == 200 && y == 300
  {
    var w := new Window(PropsWithId(Number(0)));
    assert w.x == 0 && w.y == 0;
    w.StartMove(0, 0);
    w.Update(200, 300);
    x, y := w.x, w.y;
    w.EndChange();
  }

  /** The four quadrants of the square window, probed one unit in from each corner. */
  method QuadrantCorners() returns (topLeft: Quadrant, topRight: Quadrant,
                                    bottomLeft: Quadrant, bottomRight: Quadrant)
    ensures topLeft == Quadrant(true, true)
    ensures topRight == Quadrant(true, false)
    ensures bottomLeft == Quadrant(false, true)
    ensures bottomRight == Quadrant(false, false)
  {
    var w := new Window(SquareProps());
    topLeft := w.Quadrant(1, 1);
    topRight := w.Quadrant(99, 1);
    bottomLeft := w.Quadrant(1, 99);
    bottomRight := w.Quadrant(99, 99);
  }

  /**
    Grabbing the placed square on its left edge (at parent x = 100) and
    dragging `change` units left widens it by `change` and keeps its right
    edge; a negative `change` drags right and narrows it.
   */
  method ResizeLeft(change: int) returns (x: int, y: int, width: int, height: int)
    ensures x == 100 - change && width == 100 + change
    ensures y == 100 && height == 100
  {
    var w := PlacedSquare();
    w.StartResize(100, 0);
    w.Update(100 - change, 0);
    x, y, width, height := w.x, w.y, w.width, w.height;
    w.EndChange();
  }

  /** The same on the top edge (grabbed at parent y = 100). */
  method ResizeTop(change: int) returns (x: int, y: int, width: int, height: int)
    ensures y == 100 - change && height == 100 + change
    ensures x == 100 && width == 100
  {
    var w := PlacedSquare();
    w.StartResize(0, 100);
    w.Update(0, 100 - change);
    x, y, width, height := w.x, w.y, w.width, w.height;
    w.EndChange();
  }

  /**
    Grabbing the right edge (at parent x = 200) and dragging `change` units
    left narrows the window by `change` and keeps its left edge; no lower
    limit applies while dragging.
   */
  method ResizeRight(change: int) returns (x: int, y: int, width: int, height: int)
    ensures x == 100 && width == 100 - change
    ensures y == 100 && height == 100
  {
    var w := PlacedSquare();
    w.StartResize(200, 0);
    w.Update(200 - change, 0);
    x, y, width, height := w.x, w.y, w.width, w.height;
    w.EndChange();
  }

  /** The same on the bottom edge (grabbed at parent y = 200). */
  method ResizeBottom(change: int) returns (x: int, y: int, width: int, height: int)
    ensures y == 100 && height == 100 - change
    ensures x == 100 && width == 100
  {
    var w := PlacedSquare();
    w.StartResize(0, 200);
    w.Update(0, 200 - change);
    x, y, width, height := w.x, w.y, w.width, w.height;
    w.EndChange();
  }

  /** A new window is open; closing it closes it. */
  method CloseWindow() returns (before: bool, after: bool)
    ensures before && !after
  {
    var w := new Window(PropsWithId(Number(0)));
    before := w.isOpen;
    w.Close();
    after := w.isOpen;
  }

  /** A new window is untitled; renaming it sets the title. */
  method RenameWindow(title: string) returns (before: string, after: string)
    ensures before == "" && after == title
  {
    var w := new Window(PropsWithId(Number(0)));
    before := w.title;
    w.Rename(title);
    after := w.title;
  }

  /** A window built from a complete property bag exports exactly that bag. */
  method ExportProps(j: Snapshot) returns (exported: Snapshot)
    ensures exported == j
  {
    var w := new Window(PropsOf(j));
    exported := w.ToJSON();
  }

  /** setSize with no arguments raises one change event. */
  method ChangeOnSetSize() returns (w: Window)
    ensures fresh(w) && w.changeCount == 1 && w.width == 0 && w.height == 0
  {
    w := new Window(PropsWithId(Number(0)));
    w.SetSize();
  }

  /** setPosition with no arguments raises one change event. */
  method ChangeOnSetPosition() returns (w: Window)
    ensures fresh(w) && w.changeCount == 1 && w.x == 0 && w.y == 0
  {
    w := new Window(PropsWithId(Number(0)));
    w.SetPosition();
  }

  /** A whole move gesture raises one change event, at its end. */
  method ChangeOnMove() returns (w: Window)
    ensures fresh(w) && w.changeCount == 1 && w.mode == Inactive
  {
    w := new Window(PropsWithId(Number(0)));
    w.StartMove();
    w.Update(0, 0);
    assert w.changeCount == 0;
    w.EndChange();
  }

  /** A whole resize gesture raises one change event, at its end. */
  method ChangeOnResize() returns (w: Window)
    ensures fresh(w) && w.changeCount == 1 && w.mode == Inactive
  {
    w := new Window(PropsWithId(Number(0)));
    w.StartResize(0, 0);
    w.Update(0, 0);
    assert w.changeCount == 0;
    w.EndChange();
  }

  /** Opening an open window raises nothing; close then open raise one each. */
  method ChangeOnOpen() returns (w: Window)
    ensures fresh(w) && w.changeCount == 2 && w.isOpen
  {
    w := new Window(PropsWithId(Number(0)));
    w.Open();
    assert w.changeCount == 0;
    w.Close();
    assert w.changeCount == 1;
    w.Open();
  }

  /** Closing twice raises one change event. */
  method ChangeOnClose() returns (w: Window)
    ensures fresh(w) && w.changeCount == 1 && !w.isOpen
  {
    w := new Window(PropsWithId(Number(0)));
    w.Close();
    assert w.changeCount == 1;
    w.Close();
  }

  /** Renaming raises one change event. */
  method ChangeOnRename() returns (w: Window)
    ensures fresh(w) && w.changeCount == 1 && w.title == "new name"
  {
    w := new Window(PropsWithId(Number(0)));
    w.Rename("new name");
  }
}
