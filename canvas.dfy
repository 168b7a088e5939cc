/**
 * The arithmetic of the `CanvasManager` class (canvasManager.js): the drag
 * selection rectangle, the grid lines, fitting the page into its container,
 * zooming with the wheel, placing a new image, and the targets a dragged
 * node snaps to. Everything handed to the scene-graph library is modelled
 * as the numbers passed to it.
 */
module Canvas {
  import opened Geometry

  /** The page, in stage pixels (landscape A4 at 96 dpi). */
  const A4Width: int := 1123
  const A4Height: int := 794
  const PageWidth: real := A4Width as real
  const PageHeight: real := A4Height as real

  /** Distance between grid lines. */
  const GridSpacing: int := 40

  /** Factor of one wheel notch. */
  const ScaleBy: real := 1.06

  /** A new image is shrunk to fit a square of this side. */
  const ImageBox: real := 320.0

  // ---------------------------------------------------------------------------
  // Drag selection
  // ---------------------------------------------------------------------------

  /** `_updateSelection`: the rectangle spanned by the press point and the pointer. */
  function SelectionRect(start: Point, pointer: Point): (r: Rect)
    ensures r.width >= 0.0 && r.height >= 0.0
    ensures (r.x == start.x && r.x + r.width == pointer.x) || (r.x == pointer.x && r.x + r.width == start.x)
    ensures (r.y == start.y && r.y + r.height == pointer.y) || (r.y == pointer.y && r.y + r.height == start.y)
  {
    Rect(Min(start.x, pointer.x), Min(start.y, pointer.y), Abs(pointer.x - start.x), Abs(pointer.y - start.y))
  }

  /** Dragging from a to b selects the same rectangle as dragging from b to a. */
  lemma SelectionIsSymmetric(a: Point, b: Point)
    ensures SelectionRect(a, b) == SelectionRect(b, a)
  {
  }

  // ---------------------------------------------------------------------------
  // Grid lines
  // ---------------------------------------------------------------------------

  datatype LineStyle = GridLine | CentreLine

  /** A straight line from (x1, y1) to (x2, y2). */
  datatype Line = Line(x1: real, y1: real, x2: real, y2: real, style: LineStyle)

  /** Number of multiples of the spacing from 0 to the page width, and to the page height. */
  const VerticalCount: nat := A4Width / GridSpacing + 1
  const HorizontalCount: nat := A4Height / GridSpacing + 1

  function VerticalGridLine(i: nat): Line {
    var x := (GridSpacing * i) as real;
    Line(x, 0.0, x, PageHeight, GridLine)
  }

  function HorizontalGridLine(j: nat): Line {
    var y := (GridSpacing * j) as real;
    Line(0.0, y, PageWidth, y, GridLine)
  }

  /**
   * The grid layer's lines: a vertical line at every multiple of the spacing
   * across the page, then a horizontal one at every multiple down it, then the
   * vertical and the horizontal centre line.
   */
  ghost predicate IsPageGrid(lines: seq<Line>) {
    && |lines| == VerticalCount + HorizontalCount + 2
    && (forall i :: 0 <= i < VerticalCount ==> lines[i] == VerticalGridLine(i))
    && (forall j :: 0 <= j < HorizontalCount ==> lines[VerticalCount + j] == HorizontalGridLine(j))
    && lines[|lines| - 2] == Line(PageWidth / 2.0, 0.0, PageWidth / 2.0, PageHeight, CentreLine)
    && lines[|lines| - 1] == Line(0.0, PageHeight / 2.0, PageWidth, PageHeight / 2.0, CentreLine)
  }

  /** `_initGridLines`: the lines added to the grid layer, in order. */
  method InitGridLines() returns (lines: seq<Line>)
    ensures VerticalCount == 29 && HorizontalCount == 20
    ensures |lines| == VerticalCount + HorizontalCount + 2
    ensures IsPageGrid(lines)
    // every grid line lies on the page, and the next multiple of the spacing would not
    ensures GridSpacing * (VerticalCount - 1) <= A4Width < GridSpacing * VerticalCount
    ensures GridSpacing * (HorizontalCount - 1) <= A4Height < GridSpacing * HorizontalCount
  {
    var spacing := GridSpacing;
    lines := [];
    var x := 0;
    while x <= A4Width
      invariant x == spacing * |lines| && |lines| <= VerticalCount
      invariant forall i :: 0 <= i < |lines| ==> lines[i] == VerticalGridLine(i)
    {
      lines := lines + [Line(x as real, 0.0, x as real, PageHeight, GridLine)];
      x := x + spacing;
    }
    var y := 0;
    while y <= A4Height
      invariant y == spacing * (|lines| - VerticalCount) && VerticalCount <= |lines| <= VerticalCount + HorizontalCount
      invariant forall i :: 0 <= i < VerticalCount ==> lines[i] == VerticalGridLine(i)
      invariant forall j :: 0 <= j < |lines| - VerticalCount ==> lines[VerticalCount + j] == HorizontalGridLine(j)
    {
      lines := lines + [Line(0.0, y as real, PageWidth, y as real, GridLine)];
      y := y + spacing;
    }
    lines := lines + [Line(PageWidth / 2.0, 0.0, PageWidth / 2.0, PageHeight, CentreLine)];
    lines := lines + [Line(0.0, PageHeight / 2.0, PageWidth, PageHeight / 2.0, CentreLine)];
  }

  // ---------------------------------------------------------------------------
  // Stage scale and position
  // ---------------------------------------------------------------------------

  /** The stage's uniform scale and its position in the container. */
  datatype View = View(scale: real, pos: Point)

  /** The stage's size in the container, and its view. */
  datatype StageFit = StageFit(width: real, height: real, view: View)

  /** `fitStageIntoParent`: the largest scale at which the page fits the container, centred in it. */
  function FitStageIntoParent(containerWidth: real, containerHeight: real): (f: StageFit)
    requires containerWidth >= 0.0 && containerHeight >= 0.0
    ensures f.view.scale >= 0.0
    ensures f.width == PageWidth * f.view.scale && f.height == PageHeight * f.view.scale
    ensures f.width <= containerWidth && f.height <= containerHeight
    ensures f.width == containerWidth || f.height == containerHeight
    ensures f.view.pos.x >= 0.0 && 2.0 * f.view.pos.x + f.width == containerWidth
    ensures f.view.pos.y >= 0.0 && 2.0 * f.view.pos.y + f.height == containerHeight
  {
    var scale := Min(containerWidth / PageWidth, containerHeight / PageHeight);
    StageFit(PageWidth * scale, PageHeight * scale,
      View(scale, Point((containerWidth - PageWidth * scale) / 2.0, (containerHeight - PageHeight * scale) / 2.0)))
  }

  /** No larger scale lets the page fit. */
  lemma FitIsLargest(containerWidth: real, containerHeight: real, s: real)
    requires containerWidth >= 0.0 && containerHeight >= 0.0
    requires PageWidth * s <= containerWidth && PageHeight * s <= containerHeight
    ensures s <= FitStageIntoParent(containerWidth, containerHeight).view.scale
  {
    var f := FitStageIntoParent(containerWidth, containerHeight);
    if f.width == containerWidth {
      assert PageWidth * s <= PageWidth * f.view.scale;
    } else {
      assert PageHeight * s <= PageHeight * f.view.scale;
    }
  }

  /** The stage point under a container point: `mousePointTo`. */
  function StagePointAt(v: View, pointer: Point): (p: Point)
    requires v.scale != 0.0
    ensures v.pos.x + p.x * v.scale == pointer.x && v.pos.y + p.y * v.scale == pointer.y
  {
    Point((pointer.x - v.pos.x) / v.scale, (pointer.y - v.pos.y) / v.scale)
  }

  /**
   * The wheel handler of `_bindStageEvents`: scroll up (or no vertical delta)
   * zooms in by ScaleBy, scroll down zooms out, about the pointer.
   */
  function WheelZoom(v: View, pointer: Point, deltaY: real): (r: View)
    requires v.scale > 0.0
    ensures r.scale > 0.0
    ensures deltaY <= 0.0 ==> r.scale == v.scale * ScaleBy
    ensures deltaY > 0.0 ==> r.scale * ScaleBy == v.scale
    // the stage point under the pointer stays under it
    ensures r.pos.x + StagePointAt(v, pointer).x * r.scale == pointer.x
    ensures r.pos.y + StagePointAt(v, pointer).y * r.scale == pointer.y
    ensures StagePointAt(r, pointer) == StagePointAt(v, pointer)
  {
    var oldScale := v.scale;
    var mousePointTo := StagePointAt(v, pointer);
    var direction := if deltaY > 0.0 then -1 else 1;
    var newScale := if direction > 0 then oldScale * ScaleBy else oldScale / ScaleBy;
    var r := View(newScale, Point(pointer.x - mousePointTo.x * newScale, pointer.y - mousePointTo.y * newScale));
    assert StagePointAt(r, pointer).x == mousePointTo.x by {
      assert pointer.x - r.pos.x == mousePointTo.x * newScale;
    }
    assert StagePointAt(r, pointer).y == mousePointTo.y by {
      assert pointer.y - r.pos.y == mousePointTo.y * newScale;
    }
    r
  }

  /** A notch down at the same pointer undoes a notch up, exactly. */
  lemma ZoomOutUndoesZoomIn(v: View, pointer: Point, up: real, down: real)
    requires v.scale > 0.0 && up <= 0.0 && down > 0.0
    ensures WheelZoom(WheelZoom(v, pointer, up), pointer, down) == v
  {
    var z := WheelZoom(v, pointer, up);
    var back := WheelZoom(z, pointer, down);
    assert back.scale == v.scale;
    var m := StagePointAt(v, pointer);
    assert StagePointAt(z, pointer) == m;
    assert back.pos.x == pointer.x - m.x * v.scale;
    assert m.x * v.scale == pointer.x - v.pos.x;
    assert back.pos.y == pointer.y - m.y * v.scale;
    assert m.y * v.scale == pointer.y - v.pos.y;
  }

  // ---------------------------------------------------------------------------
  // Placing an image
  // ---------------------------------------------------------------------------

  /**
   * The factor `Math.min(320 / width, 320 / height, 1)` of `addImageFromURL`.
   * A zero side makes its quotient Infinity, which never wins the minimum.
   */
  function ImageRatio(width: nat, height: nat): (r: real)
    ensures 0.0 < r <= 1.0
    ensures (width as real) * r <= ImageBox && (height as real) * r <= ImageBox
    ensures r == 1.0 || (width as real) * r == ImageBox || (height as real) * r == ImageBox
    ensures r == 1.0 <==> width as real <= ImageBox && height as real <= ImageBox
  {
    var byWidth := if width > 0 then ImageBox / width as real else 1.0;
    var byHeight := if height > 0 then ImageBox / height as real else 1.0;
    assert width > 0 ==> byWidth * (width as real) == ImageBox;
    assert height > 0 ==> byHeight * (height as real) == ImageBox;
    QuotientAtLeastOne(ImageBox, width as real);
    QuotientAtLeastOne(ImageBox, height as real);
    Min(Min(byWidth, byHeight), 1.0)
  }

  /** A quotient of a number by a positive number no larger than it is at least 1. */
  lemma QuotientAtLeastOne(a: real, b: real)
    ensures 0.0 < b <= a ==> a / b >= 1.0
  {
    if 0.0 < b <= a {
      var q := a / b;
      assert q * b == a;
      assert (q - 1.0) * b == a - b;
      assert a - b >= 0.0;
    }
  }

  /** No larger factor keeps both sides within the box, short of enlarging the image. */
  lemma ImageRatioIsLargest(width: nat, height: nat, s: real)
    requires s <= 1.0 && (width as real) * s <= ImageBox && (height as real) * s <= ImageBox
    ensures s <= ImageRatio(width, height)
  {
    var r := ImageRatio(width, height);
    if r != 1.0 {
      if (width as real) * r == ImageBox {
        assert (width as real) * s <= (width as real) * r;
      } else {
        assert (height as real) * s <= (height as real) * r;
      }
    }
  }

  /** The position and size of a newly loaded image: scaled down uniformly and centred on the page. */
  function ImagePlacement(width: nat, height: nat): (r: Rect)
    ensures r.width == (width as real) * ImageRatio(width, height)
    ensures r.height == (height as real) * ImageRatio(width, height)
    ensures r.width <= ImageBox && r.height <= ImageBox
    ensures r.width * (height as real) == r.height * (width as real)
    ensures width as real <= ImageBox && height as real <= ImageBox ==> r.width == width as real && r.height == height as real
    ensures r.x + r.width / 2.0 == PageWidth / 2.0 && r.y + r.height / 2.0 == PageHeight / 2.0
  {
    var ratio := ImageRatio(width, height);
    Rect(PageWidth / 2.0 - (width as real * ratio) / 2.0, PageHeight / 2.0 - (height as real * ratio) / 2.0,
      width as real * ratio, height as real * ratio)
  }

  // ---------------------------------------------------------------------------
  // Snap targets
  // ---------------------------------------------------------------------------

  /** A guide a dragged node can snap to: a vertical line at x or a horizontal line at y. */
  datatype Target = Vertical(x: real) | Horizontal(y: real)

  /** A node named 'object' on the content layer, with its identity and client rectangle. */
  datatype SceneObject = SceneObject(id: nat, box: Rect)

  /** The page's centre lines and edges, in the order `_snapNode` lists them. */
  const PageTargets: seq<Target> := [
    Vertical(PageWidth / 2.0), Horizontal(PageHeight / 2.0),
    Vertical(0.0), Vertical(PageWidth),
    Horizontal(0.0), Horizontal(PageHeight)
  ]

  /** The objects other than the dragged node, in layer order. */
  function Others(objects: seq<SceneObject>, node: SceneObject): (r: seq<SceneObject>)
    ensures |r| <= |objects|
  {
    if objects == [] then []
    else
      var last := objects[|objects| - 1];
      var init := objects[..|objects| - 1];
      assert objects == init + [last];
      Others(init, node) + (if last.id != node.id then [last] else [])
  }

  /** Exactly the objects that are not the dragged node are listed. */
  lemma {:induction false} OthersMembers(objects: seq<SceneObject>, node: SceneObject)
    ensures forall o :: o in Others(objects, node) <==> o in objects && o.id != node.id
  {
    if objects != [] {
      var init := objects[..|objects| - 1];
      assert objects == init + [objects[|objects| - 1]];
      OthersMembers(init, node);
    }
  }

  /** The two centre lines of a box: a vertical one as far from its left edge as from its right, and a horizontal one likewise. */
  function CentreTargets(b: Rect): (r: seq<Target>)
    ensures |r| == 2 && r[0].Vertical? && r[1].Horizontal?
    ensures r[0].x - b.x == (b.x + b.width) - r[0].x
    ensures r[1].y - b.y == (b.y + b.height) - r[1].y
  {
    [Vertical(b.x + b.width / 2.0), Horizontal(b.y + b.height / 2.0)]
  }

  /** The centre lines of each box, object after object. */
  function AllCentreTargets(objects: seq<SceneObject>): (r: seq<Target>)
    ensures |r| == 2 * |objects|
    ensures forall k :: 0 <= k < |r| ==> (r[k].Vertical? <==> k % 2 == 0)
  {
    if objects == [] then []
    else AllCentreTargets(objects[..|objects| - 1]) + CentreTargets(objects[|objects| - 1].box)
  }

  /** Object k contributes the targets at 2k and 2k + 1, and nothing else is listed. */
  lemma {:induction false} AllCentreTargetsAt(objects: seq<SceneObject>)
    ensures |AllCentreTargets(objects)| == 2 * |objects|
    ensures forall k :: 0 <= k < |objects| ==>
      AllCentreTargets(objects)[2 * k..2 * k + 2] == CentreTargets(objects[k].box)
  {
    if objects != [] {
      var n := |objects| - 1;
      var init := objects[..n];
      AllCentreTargetsAt(init);
      var r := AllCentreTargets(objects);
      assert r == AllCentreTargets(init) + CentreTargets(objects[n].box);
      forall k | 0 <= k < |objects|
        ensures r[2 * k..2 * k + 2] == CentreTargets(objects[k].box)
      {
        if k < n {
          assert r[2 * k..2 * k + 2] == AllCentreTargets(init)[2 * k..2 * k + 2];
          assert init[k] == objects[k];
        } else {
          assert r[2 * k..2 * k + 2] == CentreTargets(objects[n].box);
        }
      }
    }
  }

  /** One more object extends the list of others by itself, unless it is the dragged node. */
  lemma OthersStep(objects: seq<SceneObject>, i: nat, node: SceneObject)
    requires i < |objects|
    ensures Others(objects[..i + 1], node) ==
      Others(objects[..i], node) + (if objects[i].id != node.id then [objects[i]] else [])
  {
    assert objects[..i + 1][..i] == objects[..i];
  }

  /** One more object appends its two centre lines. */
  lemma CentresStep(others: seq<SceneObject>, o: SceneObject)
    ensures AllCentreTargets(others + [o]) == AllCentreTargets(others) + CentreTargets(o.box)
  {
    assert (others + [o])[..|others|] == others;
  }

  /** The target list `_snapNode` builds for a dragged node. */
  method SnapTargets(node: SceneObject, objects: seq<SceneObject>) returns (targets: seq<Target>)
    ensures targets == PageTargets + AllCentreTargets(Others(objects, node))
    ensures |targets| == 6 + 2 * |Others(objects, node)|
  {
    targets := PageTargets;
    var i := 0;
    while i < |objects|
      invariant 0 <= i <= |objects|
      invariant targets == PageTargets + AllCentreTargets(Others(objects[..i], node))
    {
      var o := objects[i];
      OthersStep(objects, i, node);
      if o.id != node.id {
        var b := o.box;
        ghost var done := AllCentreTargets(Others(objects[..i], node));
        CentresStep(Others(objects[..i], node), o);
        targets := targets + [Vertical(b.x + b.width / 2.0)];
        targets := targets + [Horizontal(b.y + b.height / 2.0)];
        assert targets == PageTargets + (done + CentreTargets(b));
      } else {
        assert Others(objects[..i + 1], node) == Others(objects[..i], node);
      }
      i := i + 1;
    }
    assert objects[..i] == objects;
    AllCentreTargetsAt(Others(objects, node));
  }

  /** With no duplicate identities, the dragged node among `n` objects leaves `n - 1` others. */
  lemma {:induction false} OthersCount(objects: seq<SceneObject>, node: SceneObject)
    requires forall i, j :: 0 <= i < j < |objects| ==> objects[i].id != objects[j].id
    ensures node in objects ==> |Others(objects, node)| == |objects| - 1
    ensures (forall o :: o in objects ==> o.id != node.id) ==> |Others(objects, node)| == |objects|
  {
    if objects != [] {
      var init := objects[..|objects| - 1];
      assert objects == init + [objects[|objects| - 1]];
      OthersCount(init, node);
      if node in objects && node != objects[|objects| - 1] {
        assert node in init;
      }
      if node == objects[|objects| - 1] {
        assert forall o :: o in init ==> o.id != node.id;
      }
    }
  }

  // ---------------------------------------------------------------------------
  // The manager's state
  // ---------------------------------------------------------------------------

  /** The fields of `CanvasManager` that the modelled operations read and write. */
  class CanvasManager {
    var snapThreshold: real
    var isSpaceDown: bool
    /** the press point of the current drag selection */
    var selectionStart: Point
    /** `selectionRect`: whether it is visible, and its geometry */
    var selectionVisible: bool
    var selection: Rect
    /** the children of the grid layer */
    var gridLines: seq<Line>
    /** the Konva stage's size, scale and position */
    var stageWidth: real
    var stageHeight: real
    var view: View

    /** The constructor: an invisible, empty selection rectangle, the grid, then a fit to the container. */
    constructor (containerWidth: real, containerHeight: real)
      requires containerWidth >= 0.0 && containerHeight >= 0.0
      ensures snapThreshold == 10.0 && !isSpaceDown && !selectionVisible
      ensures IsPageGrid(gridLines)
      ensures var f := FitStageIntoParent(containerWidth, containerHeight);
        stageWidth == f.width && stageHeight == f.height && view == f.view
    {
      snapThreshold := 10.0;
      isSpaceDown := false;
      selectionStart := Point(0.0, 0.0);
      selectionVisible := false;
      selection := Rect(0.0, 0.0, 0.0, 0.0);
      stageWidth, stageHeight := PageWidth, PageHeight;
      view := View(1.0, Point(0.0, 0.0));
      new;
      gridLines := InitGridLines();
      FitStage(containerWidth, containerHeight);
    }

    /** `_startSelection` at the pointer. */
    method StartSelection(pointer: Point)
      modifies this
      ensures selectionStart == pointer && selectionVisible
      ensures selection == Rect(pointer.x, pointer.y, 0.0, 0.0)
      ensures view == old(view) && stageWidth == old(stageWidth) && stageHeight == old(stageHeight)
      ensures gridLines == old(gridLines) && snapThreshold == old(snapThreshold) && isSpaceDown == old(isSpaceDown)
    {
      selectionStart := pointer;
      selectionVisible := true;
      selection := Rect(pointer.x, pointer.y, 0.0, 0.0);
    }

    /** `_updateSelection`: only while the selection rectangle is visible. */
    method UpdateSelection(pointer: Point)
      modifies this`selection
      ensures selection == if selectionVisible then SelectionRect(selectionStart, pointer) else old(selection)
    {
      if !selectionVisible {
        return;
      }
      var sx, sy := selectionStart.x, selectionStart.y;
      selection := Rect(Min(sx, pointer.x), Min(sy, pointer.y), Abs(pointer.x - sx), Abs(pointer.y - sy));
    }

    /** `_endSelection`, its effect on the rectangle. */
    method EndSelection()
      modifies this`selectionVisible
      ensures !selectionVisible
    {
      if !selectionVisible {
        return;
      }
      selectionVisible := false;
    }

    /** `fitStageIntoParent` for the container's client size. */
    method FitStage(containerWidth: real, containerHeight: real)
      requires containerWidth >= 0.0 && containerHeight >= 0.0
      modifies this`stageWidth, this`stageHeight, this`view
      ensures var f := FitStageIntoParent(containerWidth, containerHeight);
        stageWidth == f.width && stageHeight == f.height && view == f.view
    {
      var scale := Min(containerWidth / PageWidth, containerHeight / PageHeight);
      stageWidth := PageWidth * scale;
      stageHeight := PageHeight * scale;
      view := View(scale, Point((containerWidth - PageWidth * scale) / 2.0, (containerHeight - PageHeight * scale) / 2.0));
    }

    /** The stage's wheel handler. */
    method Wheel(pointer: Point, deltaY: real)
      requires view.scale > 0.0
      modifies this`view
      ensures view == WheelZoom(old(view), pointer, deltaY)
      ensures view.scale > 0.0
    {
      var oldScale := view.scale;
      var mousePointTo := Point((pointer.x - view.pos.x) / oldScale, (pointer.y - view.pos.y) / oldScale);
      var direction := if deltaY > 0.0 then -1 else 1;
      var newScale := if direction > 0 then oldScale * ScaleBy else oldScale / ScaleBy;
      view := view.(scale := newScale);
      view := view.(pos := Point(pointer.x - mousePointTo.x * newScale, pointer.y - mousePointTo.y * newScale));
    }
  }
}
