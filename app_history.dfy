/**
 * The undo/redo history of the sticker editor's main page (app.js).
 *
 * The page keeps a module-level list of stage snapshots and a cursor
 * `historyIndex`. Every committed edit pushes a snapshot; undo and redo move
 * the cursor by one and rebuild the stage from the snapshot under it; the
 * two toolbar buttons are enabled according to the cursor.
 *
 * The transitions are first given as functions on values (Timeline, Ui), with
 * their properties; the class HistoryPanel at the end performs them in place.
 */
module AppHistory {
  import opened Optional
  import opened Timelines

  // ---------------------------------------------------------------------------
  // The list and its cursor
  // ---------------------------------------------------------------------------

  /** The snapshot under the cursor equals the one being pushed: nothing changed since the last commit. */
  predicate IsDuplicate(t: Timeline, json: Snapshot)
    ensures IsDuplicate(t, json) ==> t.entries != [] && json in t.entries
    ensures Valid(t) ==> (IsDuplicate(t, json) <==> t.cursor >= 0 && t.entries[t.cursor] == json)
  {
    0 <= t.cursor < |t.entries| && t.entries[t.cursor] == json
  }

  /** `handleHistoryPush`, its effect on the list: skip a duplicate, else truncate forward and append. */
  function PushSnapshot(t: Timeline, json: Snapshot): (r: Timeline)
    requires Valid(t)
    ensures Valid(r) && 0 <= r.cursor && r.entries[r.cursor] == json
    ensures r.cursor == |r.entries| - 1 || IsDuplicate(t, json)
    ensures IsDuplicate(t, json) ==> r == t
    ensures !IsDuplicate(t, json) ==>
      && r.cursor == t.cursor + 1
      && |r.entries| == t.cursor + 2
      && r.entries[..t.cursor + 1] == t.entries[..t.cursor + 1]
  {
    if t.cursor >= 0 && t.entries[t.cursor] == json then t
    else
      var kept := t.entries[..t.cursor + 1];
      Timeline(kept + [json], |kept + [json]| - 1)
  }

  /** `restoreFromHistory`, its effect on the cursor: an index outside the list is ignored. */
  function Restore(t: Timeline, index: int): (r: Timeline)
    requires Valid(t)
    ensures Valid(r) && r.entries == t.entries
    ensures index < 0 || index >= |t.entries| ==> r == t
    ensures 0 <= index < |t.entries| ==> r.cursor == index
  {
    if index < 0 || index >= |t.entries| then t else t.(cursor := index)
  }

  /** The undo handler (button and Ctrl+Z): restore one step back, only when there is one. */
  function StepBack(t: Timeline): (r: Timeline)
    requires Valid(t)
    ensures Valid(r) && r.entries == t.entries
    ensures t.cursor > 0 ==> r.cursor == t.cursor - 1
    ensures t.cursor <= 0 ==> r == t
  {
    if t.cursor > 0 then Restore(t, t.cursor - 1) else t
  }

  /** The redo handler (button and Ctrl+Y): restore one step forward, only when there is one. */
  function StepForward(t: Timeline): (r: Timeline)
    requires Valid(t)
    ensures Valid(r) && r.entries == t.entries
    ensures t.cursor < |t.entries| - 1 ==> r.cursor == t.cursor + 1
    ensures t.cursor >= |t.entries| - 1 ==> r == t
  {
    if t.cursor < |t.entries| - 1 then Restore(t, t.cursor + 1) else t
  }

  /** Pushing the same snapshot twice is the same as pushing it once. */
  lemma PushIsIdempotent(t: Timeline, json: Snapshot)
    requires Valid(t)
    ensures PushSnapshot(PushSnapshot(t, json), json) == PushSnapshot(t, json)
  {
  }

  /** Undo right after a (new) push brings back the snapshot that was current before the push. */
  lemma UndoAfterPushRestoresPrevious(t: Timeline, json: Snapshot)
    requires Valid(t) && t.cursor >= 0 && !IsDuplicate(t, json)
    ensures var u := StepBack(PushSnapshot(t, json));
      u.cursor == t.cursor && u.entries[u.cursor] == t.entries[t.cursor]
  {
    var p := PushSnapshot(t, json);
    assert p.entries[..t.cursor + 1][t.cursor] == t.entries[..t.cursor + 1][t.cursor];
  }

  /** Redo undoes an undo. */
  lemma RedoAfterUndo(t: Timeline)
    requires Valid(t) && t.cursor > 0
    ensures StepForward(StepBack(t)) == t
  {
  }

  /** Undo undoes a redo. */
  lemma UndoAfterRedo(t: Timeline)
    requires Valid(t) && t.cursor < |t.entries| - 1
    ensures StepBack(StepForward(t)) == t
  {
  }

  // ---------------------------------------------------------------------------
  // The toolbar buttons
  // ---------------------------------------------------------------------------

  /** The `disabled` flags of the undo and redo buttons. */
  datatype Buttons = Buttons(undoDisabled: bool, redoDisabled: bool)

  /** `updateUndoRedoButtons`: a button is disabled exactly when its handler would do nothing. */
  function ButtonsFor(t: Timeline): (b: Buttons)
    requires Valid(t)
    ensures b.undoDisabled <==> StepBack(t) == t
    ensures b.redoDisabled <==> StepForward(t) == t
    ensures b.undoDisabled <==> t.cursor <= 0
    ensures b.redoDisabled <==> t.cursor >= |t.entries| - 1
  {
    Buttons(t.cursor <= 0, t.cursor >= |t.entries| - 1)
  }

  /** What the page shows: the history and the two buttons. */
  datatype Ui = Ui(timeline: Timeline, buttons: Buttons)

  predicate UiValid(u: Ui) {
    Valid(u.timeline)
  }

  /** The buttons agree with the cursor. */
  predicate InSync(u: Ui)
    requires UiValid(u)
  {
    u.buttons == ButtonsFor(u.timeline)
  }

  /** `handleHistoryPush`: the early return on a duplicate skips the button update too. */
  function OnHistoryPush(u: Ui, json: Snapshot): (r: Ui)
    requires UiValid(u)
    ensures UiValid(r) && r.timeline == PushSnapshot(u.timeline, json)
    ensures IsDuplicate(u.timeline, json) ==> r == u
    ensures !IsDuplicate(u.timeline, json) ==> InSync(r)
    ensures InSync(u) ==> InSync(r)
  {
    if IsDuplicate(u.timeline, json) then u
    else
      var t := PushSnapshot(u.timeline, json);
      Ui(t, ButtonsFor(t))
  }

  // As written, `restoreFromHistory` never calls `updateUndoRedoButtons`, so
  // after an undo or a redo the buttons keep the state of the last push.

  /** `restoreFromHistory` as written: the buttons are left as they were. */
  function OnRestoreAsWritten(u: Ui, index: int): (r: Ui)
    requires UiValid(u)
    ensures UiValid(r) && r.timeline == Restore(u.timeline, index) && r.buttons == u.buttons
  {
    Ui(Restore(u.timeline, index), u.buttons)
  }

  /** The undo handler as written. */
  function OnUndoAsWritten(u: Ui): (r: Ui)
    requires UiValid(u)
    ensures UiValid(r) && r.timeline == StepBack(u.timeline) && r.buttons == u.buttons
  {
    if u.timeline.cursor > 0 then OnRestoreAsWritten(u, u.timeline.cursor - 1) else u
  }

  /** The redo handler as written. */
  function OnRedoAsWritten(u: Ui): (r: Ui)
    requires UiValid(u)
    ensures UiValid(r) && r.timeline == StepForward(u.timeline) && r.buttons == u.buttons
  {
    if u.timeline.cursor < |u.timeline.entries| - 1 then OnRestoreAsWritten(u, u.timeline.cursor + 1) else u
  }

  /** A click on the undo button as written: a disabled button ignores the click. */
  function PressUndoAsWritten(u: Ui): (r: Ui)
    requires UiValid(u)
    ensures UiValid(r)
    ensures u.buttons.undoDisabled ==> r == u
    ensures !u.buttons.undoDisabled ==> r == OnUndoAsWritten(u)
  {
    if u.buttons.undoDisabled then u else OnUndoAsWritten(u)
  }

  /** A click on the redo button as written. */
  function PressRedoAsWritten(u: Ui): (r: Ui)
    requires UiValid(u)
    ensures UiValid(r)
    ensures u.buttons.redoDisabled ==> r == u
    ensures !u.buttons.redoDisabled ==> r == OnRedoAsWritten(u)
  {
    if u.buttons.redoDisabled then u else OnRedoAsWritten(u)
  }

  /**
   * The discrepancy: after two commits and one click on Undo, redo is possible
   * but the redo button is still disabled, so a click on it does nothing.
   */
  lemma RedoButtonStaysDisabledAfterUndo(initial: Buttons)
    ensures var u := OnHistoryPush(OnHistoryPush(Ui(Empty, initial), "a"), "b");
      var v := PressUndoAsWritten(u);
      && v.timeline == Timeline(["a", "b"], 0)
      && v.buttons.redoDisabled
      && StepForward(v.timeline) != v.timeline
      && PressRedoAsWritten(v) == v
  {
    var u1 := OnHistoryPush(Ui(Empty, initial), "a");
    assert u1.timeline == Timeline(["a"], 0);
    var u := OnHistoryPush(u1, "b");
    assert u.timeline.entries == ["a"] + ["b"];
  }

  /** `restoreFromHistory`, corrected: the buttons are refreshed from the new cursor. */
  function OnRestore(u: Ui, index: int): (r: Ui)
    requires UiValid(u)
    ensures UiValid(r) && r.timeline == Restore(u.timeline, index) && InSync(r)
  {
    var t := Restore(u.timeline, index);
    Ui(t, ButtonsFor(t))
  }

  /** The undo handler, corrected. */
  function OnUndo(u: Ui): (r: Ui)
    requires UiValid(u)
    ensures UiValid(r) && r.timeline == StepBack(u.timeline)
    ensures InSync(u) ==> InSync(r)
  {
    if u.timeline.cursor > 0 then OnRestore(u, u.timeline.cursor - 1) else u
  }

  /** The redo handler, corrected. */
  function OnRedo(u: Ui): (r: Ui)
    requires UiValid(u)
    ensures UiValid(r) && r.timeline == StepForward(u.timeline)
    ensures InSync(u) ==> InSync(r)
  {
    if u.timeline.cursor < |u.timeline.entries| - 1 then OnRestore(u, u.timeline.cursor + 1) else u
  }

  /** A click on the undo button, corrected: with the buttons in sync it is exactly the handler. */
  function PressUndo(u: Ui): (r: Ui)
    requires UiValid(u)
    ensures UiValid(r)
    ensures InSync(u) ==> r == OnUndo(u) && InSync(r)
  {
    if u.buttons.undoDisabled then u else OnUndo(u)
  }

  /** A click on the redo button, corrected. */
  function PressRedo(u: Ui): (r: Ui)
    requires UiValid(u)
    ensures UiValid(r)
    ensures InSync(u) ==> r == OnRedo(u) && InSync(r)
  {
    if u.buttons.redoDisabled then u else OnRedo(u)
  }

  /** With the correction, clicking Redo right after clicking Undo returns to where the user was. */
  lemma PressRedoAfterPressUndo(u: Ui)
    requires UiValid(u) && InSync(u) && !u.buttons.undoDisabled
    ensures PressRedo(PressUndo(u)) == u
  {
    RedoAfterUndo(u.timeline);
  }

  // ---------------------------------------------------------------------------
  // The page's state, updated in place
  // ---------------------------------------------------------------------------

  /** The module-level `history`, `historyIndex` and the two buttons' `disabled` flags of app.js. */
  class HistoryPanel {
    var history: seq<Snapshot>
    var historyIndex: int
    var undoDisabled: bool
    var redoDisabled: bool

    ghost function State(): Ui
      reads this
    {
      Ui(Timeline(history, historyIndex), Buttons(undoDisabled, redoDisabled))
    }

    ghost predicate Valid()
      reads this
    {
      UiValid(State()) && InSync(State())
    }

    /** Page start-up: an empty history, then the first snapshot of the empty stage. */
    constructor (initial: Snapshot)
      ensures Valid()
      ensures history == [initial] && historyIndex == 0
    {
      history := [];
      historyIndex := -1;
      undoDisabled, redoDisabled := false, false;
      new;
      HandleHistoryPush(initial);
    }

    /** `updateUndoRedoButtons` */
    method UpdateUndoRedoButtons()
      requires UiValid(State())
      modifies this
      ensures history == old(history) && historyIndex == old(historyIndex)
      ensures Valid()
    {
      undoDisabled := historyIndex <= 0;
      redoDisabled := historyIndex >= |history| - 1;
    }

    /** `handleHistoryPush`, the callback the canvas calls on every commit. */
    method HandleHistoryPush(json: Snapshot)
      requires UiValid(State())
      modifies this
      ensures UiValid(State())
      ensures State() == OnHistoryPush(old(State()), json)
      ensures old(Valid()) ==> Valid()
      ensures historyIndex >= 0 && history[historyIndex] == json
    {
      if historyIndex >= 0 && history[historyIndex] == json {
        return;
      }
      history := history[..historyIndex + 1];
      history := history + [json];
      historyIndex := |history| - 1;
      UpdateUndoRedoButtons();
    }

    /**
     * `restoreFromHistory`, with the button refresh the source leaves out.
     * Returns the snapshot the stage is rebuilt from, if any.
     */
    method RestoreFromHistory(index: int) returns (loaded: Option<Snapshot>)
      requires Valid()
      modifies this
      ensures Valid()
      ensures State() == OnRestore(old(State()), index)
      ensures loaded == if 0 <= index < |old(history)| then Some(old(history)[index]) else None
    {
      if index < 0 || index >= |history| {
        return None;
      }
      historyIndex := index;
      loaded := Some(history[historyIndex]);
      UpdateUndoRedoButtons();
    }

    /** The undo button and Ctrl+Z. */
    method Undo() returns (loaded: Option<Snapshot>)
      requires Valid()
      modifies this
      ensures Valid()
      ensures State() == OnUndo(old(State())) && State() == PressUndo(old(State()))
      ensures history == old(history)
      ensures loaded == if old(historyIndex) > 0 then Some(history[historyIndex]) else None
    {
      loaded := None;
      if historyIndex > 0 {
        loaded := RestoreFromHistory(historyIndex - 1);
      }
    }

    /** The redo button and Ctrl+Y. */
    method Redo() returns (loaded: Option<Snapshot>)
      requires Valid()
      modifies this
      ensures Valid()
      ensures State() == OnRedo(old(State())) && State() == PressRedo(old(State()))
      ensures history == old(history)
      ensures loaded == if old(historyIndex) < |old(history)| - 1 then Some(history[historyIndex]) else None
    {
      loaded := None;
      if historyIndex < |history| - 1 {
        loaded := RestoreFromHistory(historyIndex + 1);
      }
    }
  }
}
