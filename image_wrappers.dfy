/**
 * The wheel scaling of placed images on the tracing stage
 * (src/canvasManager.js): a scene-graph node is mapped to the image wrapper
 * that owns it by walking up its parents, and the wheel rescales that
 * wrapper's group, never below a floor.
 */
module ImageWrappers {
  import opened Optional
  import opened Geometry

  /** Scale floor of the wheel handler. */
  const MinScale: real := 0.05
  /** Step per wheel event, with and without Shift held. */
  const FineStep: real := 0.01
  const CoarseStep: real := 0.05

  /** A Konva node: its parent, the `_wrapper` a group may carry, and its scale. */
  class KonvaNode {
    var parent: KonvaNode?
    var wrapper: ImageWrapper?
    var scaleX: real
    var scaleY: real

    constructor (parent: KonvaNode?)
      ensures this.parent == parent && wrapper == null && scaleX == 1.0 && scaleY == 1.0
    {
      this.parent := parent;
      wrapper := null;
      scaleX, scaleY := 1.0, 1.0;
    }
  }

  /** The application's record of a placed image: its Konva group and the scale it remembers. */
  class ImageWrapper {
    var group: KonvaNode
    var scaleX: real
    var scaleY: real

    constructor (group: KonvaNode)
      ensures this.group == group && scaleX == 1.0 && scaleY == 1.0
    {
      this.group := group;
      scaleX, scaleY := 1.0, 1.0;
    }
  }

  /** `chain` is `shape` followed by its parents, up to the root. */
  ghost predicate IsChain(shape: KonvaNode, chain: seq<KonvaNode>)
    reads chain
  {
    && |chain| > 0 && chain[0] == shape
    && (forall i :: 0 <= i < |chain| - 1 ==> chain[i].parent == chain[i + 1])
    && chain[|chain| - 1].parent == null
  }

  /** The wrapper of the first node of the chain that has one. */
  function NearestWrapper(chain: seq<KonvaNode>): (w: ImageWrapper?)
    reads chain
  {
    if chain == [] then null
    else if chain[0].wrapper != null then chain[0].wrapper
    else NearestWrapper(chain[1..])
  }

  /** The nearest wrapper is that of some node k, and no node before k has one; it is null when none has. */
  lemma {:induction false} NearestWrapperIsFirst(chain: seq<KonvaNode>)
    ensures NearestWrapper(chain) == null <==> forall i :: 0 <= i < |chain| ==> chain[i].wrapper == null
    ensures NearestWrapper(chain) != null ==>
      exists k :: 0 <= k < |chain| && chain[k].wrapper == NearestWrapper(chain)
        && forall j :: 0 <= j < k ==> chain[j].wrapper == null
  {
    if chain != [] && chain[0].wrapper == null {
      NearestWrapperIsFirst(chain[1..]);
      if NearestWrapper(chain) != null {
        var k :| 0 <= k < |chain| - 1 && chain[1..][k].wrapper == NearestWrapper(chain)
          && forall j :: 0 <= j < k ==> chain[1..][j].wrapper == null;
        assert chain[k + 1].wrapper == NearestWrapper(chain);
        forall j | 0 <= j < k + 1 ensures chain[j].wrapper == null {
          if j > 0 { assert chain[j] == chain[1..][j - 1]; }
        }
      } else {
        forall i | 0 <= i < |chain| ensures chain[i].wrapper == null {
          if i > 0 { assert chain[i] == chain[1..][i - 1]; }
        }
      }
    }
  }

  /** `findImageWrapperForKonva`: null for no shape, else the nearest wrapper on the way to the root. */
  method FindImageWrapperForKonva(shape: KonvaNode?, ghost chain: seq<KonvaNode>) returns (w: ImageWrapper?)
    requires shape != null ==> IsChain(shape, chain)
    ensures shape == null ==> w == null
    ensures shape != null ==> w == NearestWrapper(chain)
  {
    if shape == null {
      return null;
    }
    var cur: KonvaNode? := shape;
    ghost var k := 0;
    while cur != null && cur.wrapper == null
      invariant 0 <= k <= |chain|
      invariant k < |chain| ==> cur == chain[k]
      invariant k == |chain| ==> cur == null
      invariant NearestWrapper(chain[k..]) == NearestWrapper(chain)
      decreases |chain| - k
    {
      assert chain[k..][1..] == chain[k + 1..];
      cur := cur.parent;
      k := k + 1;
    }
    if cur != null {
      w := cur.wrapper;
    } else {
      assert chain[k..] == [];
      w := null;
    }
  }

  /** JavaScript's `Math.sign` on a number that is not NaN. */
  function Sign(r: real): (s: int)
    ensures s == -1 || s == 0 || s == 1
    ensures (s < 0 <==> r < 0.0) && (s > 0 <==> r > 0.0)
  {
    if r < 0.0 then -1 else if r > 0.0 then 1 else 0
  }

  /** The new group scale of one wheel event: up grows, down shrinks, by the step, never below the floor. */
  function WheelScale(current: real, deltaY: real, shiftKey: bool): (r: real)
    ensures r >= MinScale
    ensures r == MinScale || r == current * (1.0 - (Sign(deltaY) as real) * (if shiftKey then FineStep else CoarseStep))
    ensures deltaY < 0.0 ==> r == Max(MinScale, current * (1.0 + (if shiftKey then FineStep else CoarseStep)))
    ensures deltaY > 0.0 ==> r == Max(MinScale, current * (1.0 - (if shiftKey then FineStep else CoarseStep)))
    ensures deltaY == 0.0 && current >= MinScale ==> r == current
    ensures deltaY < 0.0 && current >= MinScale ==> r > current
    ensures deltaY > 0.0 && current > MinScale ==> r < current
  {
    var delta := Sign(deltaY) as real;
    var fine := if shiftKey then FineStep else CoarseStep;
    Max(MinScale, current * (1.0 - delta * fine))
  }

  /** A larger scale never gives a smaller result. */
  lemma WheelScaleIsMonotonic(a: real, b: real, deltaY: real, shiftKey: bool)
    requires a <= b
    ensures WheelScale(a, deltaY, shiftKey) <= WheelScale(b, deltaY, shiftKey)
  {
    var f := 1.0 - (Sign(deltaY) as real) * (if shiftKey then FineStep else CoarseStep);
    assert f > 0.0;
    assert a * f <= b * f;
  }

  /**
   * The wheel listener of `initCanvas`, given the pointer position (None when
   * there is none), the shape under it (null when none) and its chain of
   * parents. Returns whether the event was handled (and its default prevented).
   */
  method OnWheel(pointer: Option<Point>, shape: KonvaNode?, ghost chain: seq<KonvaNode>, deltaY: real, shiftKey: bool)
    returns (handled: bool)
    requires shape != null ==> IsChain(shape, chain)
    modifies if pointer.Some? && shape != null && NearestWrapper(chain) != null then {NearestWrapper(chain)} else {}
    modifies if pointer.Some? && shape != null && NearestWrapper(chain) != null then {NearestWrapper(chain).group} else {}
    ensures handled == (pointer.Some? && shape != null && old(NearestWrapper(chain)) != null)
    ensures handled ==>
      var w := old(NearestWrapper(chain));
      var s := WheelScale(old(w.group.scaleX), deltaY, shiftKey);
      && w.group == old(w.group)
      && w.group.parent == old(w.group.parent) && w.group.wrapper == old(w.group.wrapper)
      && w.group.scaleX == s && w.group.scaleY == s
      && w.scaleX == s && w.scaleY == s
  {
    if pointer.None? {
      return false;
    }
    if shape == null {
      return false;
    }
    var node := FindImageWrapperForKonva(shape, chain);
    if node == null {
      return false;
    }
    var delta := Sign(deltaY) as real;
    var fine := if shiftKey then FineStep else CoarseStep;
    var current := node.group.scaleX;
    assert node.group == old(NearestWrapper(chain).group);
    var newScale := Max(MinScale, current * (1.0 - delta * fine));
    node.group.scaleX, node.group.scaleY := newScale, newScale;
    node.scaleX, node.scaleY := newScale, newScale;
    handled := true;
  }
}
