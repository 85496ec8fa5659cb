/**
  The window as the host sees it: one mutable object whose methods update its
  fields in place. Every method is proved to take the window from `State()`
  to the state the matching function of `WindowSpec` gives, so the lemmas
  proved there hold of the object. `changeCount` stands in for the `change`
  listeners: it goes up by one each time the window would emit the event.
 */
module WindowModel {
  import opened WindowSpec

  class Window {
    const id: WindowId
    var x: int
    var y: int
    var index: Option<int>
    var width: int
    var height: int
    var maxWidth: Bound
    var minWidth: int
    var maxHeight: Bound
    var minHeight: int
    var title: string
    var isOpen: bool
    var mode: Mode
    var anchor: Option<Anchor>
    ghost var changeCount: nat

    /** The window's whole state as a value. */
    ghost function State(): WindowState
      reads this
    {
      WindowState(id, x, y, index, width, height, maxWidth, minWidth, maxHeight, minHeight,
                  title, isOpen, mode, anchor, changeCount)
    }

    /**
      The gesture invariant: a gesture is in progress exactly when an anchor
      is held. The constructor, the gesture starts and `EndChange` establish
      it; every other method keeps it.
     */
    ghost predicate Valid()
      reads this
    {
      WindowSpec.Valid(State())
    }

    /** Build a window from a property bag; omitted keys take their defaults. */
    constructor (props: Props)
      ensures State() == Initial(props)
      ensures Valid()
    {
      id := props.id;
      x := props.x.GetOr(0);
      y := props.y.GetOr(0);
      index := props.index;
      width := props.width.GetOr(0);
      height := props.height.GetOr(0);
      maxWidth := props.maxWidth.GetOr(Infinite);
      minWidth := props.minWidth.GetOr(0);
      maxHeight := props.maxHeight.GetOr(Infinite);
      minHeight := props.minHeight.GetOr(0);
      title := props.title.GetOr("");
      isOpen := props.isOpen.GetOr(true);
      mode := Inactive;
      anchor := None;
      changeCount := 0;
    }

    /** The quadrant of this window that a point in its own coordinates falls in. */
    function Quadrant(lx: int, ly: int): (q: WindowSpec.Quadrant)
      reads this
      ensures q.top <==> (ly as real) < (height as real) / 2.0
      ensures q.left <==> (lx as real) < (width as real) / 2.0
    {
      QuadrantAt(width, height, lx, ly)
    }

    method StartMove(px: int := 0, py: int := 0)
      modifies this
      ensures State() == WindowSpec.StartMove(old(State()), px, py)
      ensures Valid()
    {
      mode := Move;
      anchor := Some(Anchor(px, py, x, y, width, height, false, false));
    }

    /** Begin a resize; (px, py) is in the parent's coordinates. */
    method StartResize(px: int, py: int)
      modifies this
      ensures State() == WindowSpec.StartResize(old(State()), px, py)
      ensures Valid()
    {
      var q := Quadrant(px - x, py - y);
      mode := Resize;
      anchor := Some(Anchor(px, py, x, y, width, height, q.top, q.left));
    }

    /** The pointer is at (px, py); no change event is raised here. */
    method Update(px: int, py: int)
      modifies this
      ensures State() == WindowSpec.Update(old(State()), px, py)
      ensures old(Valid()) ==> Valid()
    {
      if mode == Inactive || anchor.None? {
        return;
      }
      var a := anchor.value;
      var dx, dy := px - a.px, py - a.py;
      if mode == Move {
        x := a.x + dx;
        y := a.y + dy;
      } else {
        if a.left {
          x := a.x + dx;
          width := a.width - dx;
        } else {
          width := a.width + dx;
        }
        if a.top {
          y := a.y + dy;
          height := a.height - dy;
        } else {
          height := a.height + dy;
        }
      }
    }

    /** End the gesture in progress; raises the gesture's one change event. */
    method EndChange()
      modifies this
      ensures State() == WindowSpec.EndChange(old(State()))
      ensures Valid()
    {
      mode := Inactive;
      anchor := None;
      changeCount := changeCount + 1;
    }

    method SetPosition(x': int := 0, y': int := 0)
      modifies this
      ensures State() == WindowSpec.SetPosition(old(State()), x', y')
      ensures old(Valid()) ==> Valid()
    {
      x, y := x', y';
      changeCount := changeCount + 1;
    }

    method SetSize(width': int := 0, height': int := 0)
      modifies this
      ensures State() == WindowSpec.SetSize(old(State()), width', height')
      ensures old(Valid()) ==> Valid()
    {
      width, height := width', height';
      changeCount := changeCount + 1;
    }

    method Open()
      modifies this
      ensures State() == WindowSpec.Open(old(State()))
      ensures old(Valid()) ==> Valid()
    {
      if !isOpen {
        isOpen := true;
        changeCount := changeCount + 1;
      }
    }

    method Close()
      modifies this
      ensures State() == WindowSpec.Close(old(State()))
      ensures old(Valid()) ==> Valid()
    {
      if isOpen {
        isOpen := false;
        changeCount := changeCount + 1;
      }
    }

    method Rename(title': string)
      modifies this
      ensures State() == WindowSpec.Rename(old(State()), title')
      ensures old(Valid()) ==> Valid()
    {
      title := title';
      changeCount := changeCount + 1;
    }

    /** The serialized form: the twelve persistent fields. */
    function ToJSON(): (j: Snapshot)
      reads this
      ensures j == WindowSpec.ToJSON(State())
      ensures j.x == x && j.y == y && j.width == width && j.height == height
      ensures j.title == title && j.isOpen == isOpen
    {
      Snapshot(id, x, y, index, width, height, maxWidth, minWidth, maxHeight, minHeight,
               title, isOpen)
    }
  }
}
