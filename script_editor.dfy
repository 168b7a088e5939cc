/**
 * The single-page editor variant (script.js): its undo history and the
 * edge snapping applied while a node is dragged.
 */
module ScriptEditor {
  import opened Optional
  import opened Geometry
  import opened Timelines

  /** The stage size, in stage pixels (landscape A4 at 96 dpi). */
  const StageWidth: real := 1123.0
  const StageHeight: real := 794.0

  /** `snapTolerance` */
  const SnapTolerance: real := 10.0

  // ---------------------------------------------------------------------------
  // History
  // ---------------------------------------------------------------------------

  /** `saveHistory`: advance the cursor, cut the list there and append; no duplicate check. */
  function Save(t: Timeline, json: Snapshot): (r: Timeline)
    requires Valid(t)
    ensures Valid(r)
    ensures r.cursor == t.cursor + 1 && |r.entries| == r.cursor + 1
    ensures r.entries[r.cursor] == json
    ensures r.entries[..r.cursor] == t.entries[..r.cursor]
  {
    var step := t.cursor + 1;
    Timeline(t.entries[..step] + [json], step)
  }

  /** `undo`: one step back when there is one; the list is kept. */
  function StepBack(t: Timeline): (r: Timeline)
    requires Valid(t)
    ensures Valid(r) && r.entries == t.entries
    ensures t.cursor > 0 ==> r.cursor == t.cursor - 1
    ensures t.cursor <= 0 ==> r == t
  {
    if t.cursor > 0 then t.(cursor := t.cursor - 1) else t
  }

  /** `redo`: one step forward when there is one; the list is kept. */
  function StepForward(t: Timeline): (r: Timeline)
    requires Valid(t)
    ensures Valid(r) && r.entries == t.entries
    ensures t.cursor < |t.entries| - 1 ==> r.cursor == t.cursor + 1
    ensures t.cursor >= |t.entries| - 1 ==> r == t
  {
    if t.cursor < |t.entries| - 1 then t.(cursor := t.cursor + 1) else t
  }

  /** Saving an unchanged stage still grows the history: each save is a new undo step. */
  lemma SaveTwiceAddsTwoSteps(t: Timeline, json: Snapshot)
    requires Valid(t)
    ensures var r := Save(Save(t, json), json);
      r.cursor == t.cursor + 2 && r.entries[r.cursor - 1] == r.entries[r.cursor] == json
  {
  }

  /** Redo undoes an undo. */
  lemma RedoAfterUndo(t: Timeline)
    requires Valid(t) && t.cursor > 0
    ensures StepForward(StepBack(t)) == t
  {
  }

  /** The page's `history` and `historyStep` globals. */
  class EditorHistory {
    var history: seq<Snapshot>
    var historyStep: int

    ghost function State(): Timeline
      reads this
    {
      Timeline(history, historyStep)
    }

    ghost predicate Valid()
      reads this
    {
      Timelines.Valid(State())
    }

    /** `init`: empty globals, then the initial `saveHistory()`. */
    constructor (initial: Snapshot)
      ensures Valid() && history == [initial] && historyStep == 0
    {
      history := [];
      historyStep := -1;
      new;
      SaveHistory(initial);
    }

    /** `saveHistory`, with `stage.toJSON()` passed in. */
    method SaveHistory(json: Snapshot)
      requires Valid()
      modifies this
      ensures Valid()
      ensures State() == Save(old(State()), json)
      ensures historyStep == old(historyStep) + 1 && |history| == historyStep + 1
      ensures history == old(history)[..historyStep] + [json]
    {
      historyStep := historyStep + 1;
      history := history[..historyStep];
      history := history + [json];
    }

    /** `undo`; returns the snapshot the stage is rebuilt from, if any. */
    method Undo() returns (loaded: Option<Snapshot>)
      requires Valid()
      modifies this
      ensures Valid()
      ensures State() == StepBack(old(State()))
      ensures history == old(history)
      ensures loaded == if old(historyStep) > 0 then Some(history[historyStep]) else None
    {
      loaded := None;
      if historyStep > 0 {
        historyStep := historyStep - 1;
        loaded := Some(history[historyStep]);
      }
    }

    /** `redo`; returns the snapshot the stage is rebuilt from, if any. */
    method Redo() returns (loaded: Option<Snapshot>)
      requires Valid()
      modifies this
      ensures Valid()
      ensures State() == StepForward(old(State()))
      ensures history == old(history)
      ensures loaded == if old(historyStep) < |old(history)| - 1 then Some(history[historyStep]) else None
    {
      loaded := None;
      if historyStep < |history| - 1 {
        historyStep := historyStep + 1;
        loaded := Some(history[historyStep]);
      }
    }
  }

  // ---------------------------------------------------------------------------
  // Snapping
  // ---------------------------------------------------------------------------

  /**
   * `applySnapping`: given the dragged node's client rectangle `box` and its
   * position (nodeX, nodeY), the position it is moved to. Each axis snaps to
   * the near stage edge when strictly within the tolerance; when both edges
   * of an axis are, the far (right or bottom) edge wins.
   */
  method ApplySnapping(box: Rect, nodeX: real, nodeY: real) returns (x: real, y: real)
    ensures Abs(box.x + box.width - StageWidth) < SnapTolerance ==> x == StageWidth - box.width
    ensures Abs(box.x + box.width - StageWidth) >= SnapTolerance && Abs(box.x) < SnapTolerance ==> x == 0.0
    ensures Abs(box.x + box.width - StageWidth) >= SnapTolerance && Abs(box.x) >= SnapTolerance ==> x == nodeX
    ensures Abs(box.y + box.height - StageHeight) < SnapTolerance ==> y == StageHeight - box.height
    ensures Abs(box.y + box.height - StageHeight) >= SnapTolerance && Abs(box.y) < SnapTolerance ==> y == 0.0
    ensures Abs(box.y + box.height - StageHeight) >= SnapTolerance && Abs(box.y) >= SnapTolerance ==> y == nodeY
    // when the box sits at the node's position, a snap moves it by less than the tolerance
    ensures box.x == nodeX ==> Abs(x - nodeX) < SnapTolerance || x == nodeX
    ensures box.y == nodeY ==> Abs(y - nodeY) < SnapTolerance || y == nodeY
  {
    var tolerance := SnapTolerance;
    var closestX: Option<real> := None;
    var closestY: Option<real> := None;

    if Abs(box.x) < tolerance { closestX := Some(0.0); }
    if Abs(box.x + box.width - StageWidth) < tolerance { closestX := Some(StageWidth - box.width); }

    if Abs(box.y) < tolerance { closestY := Some(0.0); }
    if Abs(box.y + box.height - StageHeight) < tolerance { closestY := Some(StageHeight - box.height); }

    x, y := nodeX, nodeY;
    if closestX.Some? { x := closestX.value; }
    if closestY.Some? { y := closestY.value; }
  }
}
