# Sticker bundle designer — a Dafny model of its editing core

The sticker bundle designer is a browser editor for A4 sticker sheets built on
the Konva canvas library. This project models the parts of it that compute
something rather than draw it:

- the undo/redo history of the main page (`app.js`): the snapshot list and its
  cursor, the duplicate check on push, the truncation of the redo branch, and
  the enabled state of the two toolbar buttons;
- the bold/italic toggle on a text node's font style (`app.js`): JavaScript's
  `split(' ')`, `filter(Boolean)` and `join(' ')` on the style string;
- the stylesheet id of a Google font (`app.js`): the `\s+` to `-` replacement;
- the single-page editor (`script.js`): its own history (no duplicate
  check) and the edge snapping of a dragged node;
- the canvas manager (`canvasManager.js`): the rubber-band selection rectangle,
  the grid lines, fitting the A4 stage into its container, zooming around the
  pointer with the wheel, the initial size and position of an uploaded image,
  and the list of snap targets;
- the tracing canvas (`src/canvasManager.js`): finding the image wrapper of a
  clicked shape by walking up its parents, and rescaling it with the wheel.

Modules: `Optional`, `Geometry` and `Timelines` (common.dfy) hold shared
values. `AppHistory` (app_history.dfy) and `AppText` (app_text.dfy) model
app.js. `ScriptEditor` (script_editor.dfy) models script.js, and
`HistoryVariants` (history_variants.dfy) compares the two histories.
`Canvas` (canvas.dfy) models canvasManager.js, and `ImageWrappers`
(image_wrappers.dfy) models src/canvasManager.js.

Where the source updates state in place, the model does too. script.js's
history is class `ScriptEditor.EditorHistory`. The page's history is class
`AppHistory.HistoryPanel`, which performs the corrected behaviour described
under "## Findings": its restore refreshes the buttons, and its invariant
keeps them in line with the cursor, which app.js as written does not. The
page as written is modelled on values only, by the `...AsWritten` functions. The canvas manager's fields are class
`Canvas.CanvasManager`. The Konva nodes and image wrappers are the linked
classes `ImageWrappers.KonvaNode` and `ImageWrappers.ImageWrapper`. The loops
of `_initGridLines`, `_snapNode` and `findImageWrapperForKonva` are `while`
loops. Each of these methods is proved against a function on values, and the
properties are lemmas about those functions.

Numbers are exact reals, not IEEE doubles. Image sizes are natural numbers.
Stage snapshots (`stage.toJSON()`) are opaque strings.

## Model

| member | source | states |
|---|---|---|
| AppHistory.IsDuplicate | app.js:13 | a duplicate is a snapshot already in the history; on a valid history it is exactly the source's test `historyIndex >= 0 && history[historyIndex] === json` |
| AppHistory.PushSnapshot | app.js:11-19 | a snapshot equal to the one under the cursor leaves the history unchanged; otherwise everything after the cursor is dropped, the snapshot is appended and becomes current, and the entries up to the old cursor are kept |
| AppHistory.Restore | app.js:20-23 | an index outside the list is ignored; otherwise the cursor moves to it and the list is unchanged |
| AppHistory.StepBack | app.js:51-53 | undo moves the cursor back by one when it is above 0, and otherwise does nothing |
| AppHistory.StepForward | app.js:54-56 | redo moves the cursor forward by one when it is before the last entry, and otherwise does nothing |
| AppHistory.PushIsIdempotent | app.js:11-19 | pushing the same snapshot twice equals pushing it once |
| AppHistory.UndoAfterPushRestoresPrevious | app.js:11-19 | after a new push, undo brings back the snapshot that was current before it |
| AppHistory.RedoAfterUndo | app.js:51-56 | redo right after undo returns to the same history state |
| AppHistory.UndoAfterRedo | app.js:51-56 | undo right after redo returns to the same history state |
| AppHistory.ButtonsFor | app.js:47-50 | the undo button is disabled exactly when undo would do nothing (cursor at most 0); the redo button exactly when redo would do nothing (cursor at the last entry) |
| AppHistory.OnHistoryPush | app.js:11-19 | the history becomes the push result; a non-duplicate push brings the buttons into line with the cursor, and a duplicate keeps whatever they showed |
| AppHistory.OnRestoreAsWritten | app.js:20-46 | as written: the cursor moves but the buttons keep their old state |
| AppHistory.OnUndoAsWritten | app.js:51-53 | as written: undo moves the cursor back and leaves the buttons as they were |
| AppHistory.OnRedoAsWritten | app.js:54-56 | as written: redo moves the cursor forward and leaves the buttons as they were |
| AppHistory.PressUndoAsWritten | app.js:47-53 | as written: a click on a disabled undo button changes nothing, and one on an enabled button runs the as-written undo handler |
| AppHistory.PressRedoAsWritten | app.js:47-56 | as written: a click on a disabled redo button changes nothing, and one on an enabled button runs the as-written redo handler |
| AppHistory.RedoButtonStaysDisabledAfterUndo | app.js:20-56 | after pushing "a" and "b" and clicking Undo, redo is possible but the redo button is still disabled, so clicking it has no effect |
| AppHistory.OnRestore | app.js:20-23 | corrected restore: the cursor moves and the buttons match the new cursor |
| AppHistory.OnUndo | app.js:51-53 | corrected undo: steps back, and the buttons stay in line with the cursor |
| AppHistory.OnRedo | app.js:54-56 | corrected redo: steps forward, and the buttons stay in line with the cursor |
| AppHistory.PressUndo | app.js:47-53 | corrected: when the buttons match the cursor, clicking Undo is exactly the undo handler and keeps them matching |
| AppHistory.PressRedo | app.js:47-56 | corrected: when the buttons match the cursor, clicking Redo is exactly the redo handler and keeps them matching |
| AppHistory.PressRedoAfterPressUndo | app.js:47-56 | with the correction, clicking Redo right after Undo restores the page state |
| AppHistory.HistoryPanel.constructor | app.js:9-10 | the page starts with an empty list and cursor -1, then pushes the first snapshot: a one-entry history, in sync with the buttons |
| AppHistory.HistoryPanel.UpdateUndoRedoButtons | app.js:47-50 | sets both flags from the cursor and changes nothing else |
| AppHistory.HistoryPanel.HandleHistoryPush | app.js:11-19 | updates the fields in place to exactly `OnHistoryPush` of the old state; the pushed snapshot is under the cursor afterwards |
| AppHistory.HistoryPanel.RestoreFromHistory | app.js:20-23 | in place, the corrected `OnRestore`; returns the snapshot the stage is rebuilt from, or None when the index is out of range |
| AppHistory.HistoryPanel.Undo | app.js:51-53 | in place, the corrected undo, equal to a click on the button; the list is unchanged; returns the restored snapshot when there was a step back |
| AppHistory.HistoryPanel.Redo | app.js:54-56 | in place, the corrected redo, equal to a click on the button; the list is unchanged; returns the restored snapshot when there was a step forward |
| AppText.Split | app.js:147 | JavaScript `split(' ')` always yields at least one part |
| AppText.SplitIsSpaceFree | app.js:147 | no part of `split(' ')` contains a space |
| AppText.JoinSplit | app.js:147-149 | `join(' ')` inverts `split(' ')` |
| AppText.SplitJoin | app.js:147-149 | `split(' ')` inverts `join(' ')` on a nonempty list of space-free words |
| AppText.SplitWord | app.js:147 | a space-free prefix is glued to the first part of the split |
| AppText.Join | app.js:149 | `join(' ')`: the result starts with the first part, followed by a space when there are more parts; no parts give "" |
| AppText.NonEmpty | app.js:147 | `filter(Boolean)` keeps exactly the nonempty parts, each as often as in the input |
| AppText.Without | app.js:149 | `filter(s => s !== flag)` keeps exactly the parts other than the flag, each as often as in the input |
| AppText.NonEmptyAppend | app.js:147 | `filter(Boolean)` keeps the input order: filtering a concatenation concatenates the filtered halves |
| AppText.WithoutAppend | app.js:149 | `filter(s => s !== flag)` keeps the input order in the same way |
| AppText.NonEmptyKeepsSpaceFree | app.js:147 | filtering parts without spaces leaves parts without spaces |
| AppText.Tokens | app.js:147 | `split(' ').filter(Boolean)`: the nonempty parts of the split, each nonempty and free of spaces |
| AppText.TokensOfJoin | app.js:147-149 | reading back the style written from nonempty, space-free tokens gives those tokens |
| AppText.NonEmptyOfNonEmpty | app.js:147 | filtering a list that has no empty parts changes nothing |
| AppText.WithoutKeepsWords | app.js:149 | removing the flag keeps the tokens nonempty and space-free |
| AppText.ToggleStyle | app.js:143-151 | with no selected text node nothing changes; otherwise the button's toggle flips and a new style is written |
| AppText.ToggleOnAppends | app.js:143-151 | toggling on appends the flag to the existing tokens |
| AppText.ToggleOffRemoves | app.js:143-151 | toggling off removes every occurrence of the flag and keeps the other tokens |
| AppText.ToggleOnTwiceDuplicates | app.js:145-149 | the button's toggle state, not the style, decides the action: two "on" toggles leave the flag in the style twice |
| AppText.IsSpace | app.js:213 | the JavaScript `\s` class: space, tab, line breaks and no-break space are in it; digits, ASCII letters and `-` are not |
| AppText.DropSpaces | app.js:213 | drops the leading run of whitespace: the result is a suffix that does not start with whitespace |
| AppText.DropRun | app.js:213 | a whitespace run followed by a non-whitespace character is dropped whole |
| AppText.Hyphenate | app.js:213 | `replace(/\s+/g, '-')` never lengthens the string |
| AppText.HyphenateIsIdempotent | app.js:213 | replacing a second time changes nothing |
| AppText.RunLengthIsForgotten | app.js:213 | any whitespace run between two words becomes a single `-` |
| AppText.HyphenateRun | app.js:213 | a leading whitespace run becomes a single `-` |
| AppText.HyphenateWord | app.js:213 | a whitespace-free prefix is copied unchanged |
| AppText.HyphenateCons | app.js:213 | a non-whitespace character is copied unchanged |
| AppText.HyphenateHasNoSpace | app.js:213 | the result contains no whitespace |
| AppText.HyphenateKeepsSpaceFree | app.js:213 | a string without whitespace is unchanged |
| AppText.FontStylesheetId | app.js:211-214 | the id is `gfont-` followed by a whitespace-free name, and equals `gfont-` + family when the family has no whitespace |
| AppText.DoubleSpaceSharesId | app.js:211-214 | "Open  Sans" and "Open Sans" get the same id, so the font is injected once |
| ScriptEditor.Save | script.js:242-246 | the step always advances by one; the list is cut after the old step and the snapshot appended as the last entry |
| ScriptEditor.StepBack | script.js:248-250 | undo moves the step back by one when it is above 0, and otherwise does nothing |
| ScriptEditor.StepForward | script.js:261-263 | redo moves the step forward by one when it is before the last entry, and otherwise does nothing |
| ScriptEditor.SaveTwiceAddsTwoSteps | script.js:242-246 | saving the same snapshot twice adds two entries, since there is no duplicate check |
| ScriptEditor.RedoAfterUndo | script.js:248-272 | redo right after undo returns to the same history state |
| ScriptEditor.EditorHistory.constructor | script.js:45 | a first save on the empty list (step -1) gives a one-entry history at step 0 |
| ScriptEditor.EditorHistory.SaveHistory | script.js:242-246 | increments the step, slices the list to it and appends, matching `Save` |
| ScriptEditor.EditorHistory.Undo | script.js:248-259 | in place, `StepBack`; returns the snapshot the stage is rebuilt from, if any |
| ScriptEditor.EditorHistory.Redo | script.js:261-272 | in place, `StepForward`; returns the snapshot the stage is rebuilt from, if any |
| ScriptEditor.ApplySnapping | script.js:222-239 | a right or bottom edge within 10 px snaps to the stage edge and takes precedence; otherwise a left or top edge within 10 px snaps to 0; otherwise that coordinate is unchanged |
| HistoryVariants.SameUnlessDuplicate | script.js:242-246 | on a snapshot that is not a duplicate, script.js's save and app.js's push give the same history |
| HistoryVariants.DifferOnDuplicate | app.js:13 | on a duplicate, app.js's push keeps the history while script.js's save still advances the step |
| Geometry.Abs | canvasManager.js:153-154 | `Math.abs`: non-negative, and equal to the argument or its negation |
| Geometry.Min | canvasManager.js:151-152 | `Math.min` of two numbers: at most both, and equal to one of them |
| Geometry.Max | src/canvasManager.js:38 | `Math.max` of two numbers: at least both, and equal to one of them |
| Canvas.SelectionRect | canvasManager.js:146-157 | the rectangle has non-negative size, and the start point and the pointer are opposite corners |
| Canvas.SelectionIsSymmetric | canvasManager.js:150-155 | swapping the start point and the pointer gives the same rectangle |
| Canvas.InitGridLines | canvasManager.js:167-178 | 29 vertical lines every 40 px across the page width, then 20 horizontal ones down its height, the last of each within the page, then the two centre lines (`IsPageGrid`) |
| Canvas.FitStageIntoParent | canvasManager.js:184-195 | the scaled page fits the container, touches it in one dimension, and is centred |
| Canvas.FitIsLargest | canvasManager.js:188 | no larger scale keeps the page inside the container |
| Canvas.StagePointAt | canvasManager.js:107-110 | `mousePointTo`: the stage point that the current view draws under the pointer |
| Canvas.WheelZoom | canvasManager.js:102-122 | wheel up multiplies the scale by 1.06 and wheel down divides it; the stage point under the pointer stays under the pointer |
| Canvas.ZoomOutUndoesZoomIn | canvasManager.js:111-119 | a wheel step up followed by one down at the same pointer restores scale and position |
| Canvas.ImageRatio | canvasManager.js:230 | the ratio is in (0, 1], both scaled sides fit in 320 px, one touches 320 unless the ratio is 1, and it is 1 exactly when the image already fits |
| Canvas.ImageRatioIsLargest | canvasManager.js:230 | no larger ratio up to 1 fits the image in 320 px |
| Canvas.ImagePlacement | canvasManager.js:230-236 | the image keeps its aspect ratio, fits in 320 px, keeps its natural size when it already fits, and is centred on the page |
| Canvas.Others | canvasManager.js:347-348 | skipping the dragged node never lengthens the object list |
| Canvas.OthersMembers | canvasManager.js:347-348 | the objects considered are exactly those other than the dragged node |
| Canvas.OthersStep | canvasManager.js:347-348 | one more object is considered exactly when it is not the dragged node |
| Canvas.OthersCount | canvasManager.js:347-348 | with distinct ids, one object is skipped when the node is among them and none otherwise |
| Canvas.CentreTargets | canvasManager.js:349-351 | an object's two targets: a vertical line midway between its left and right edges, then a horizontal line midway between its top and bottom |
| Canvas.AllCentreTargets | canvasManager.js:347-352 | two targets per object, alternating vertical and horizontal |
| Canvas.AllCentreTargetsAt | canvasManager.js:349-351 | each object contributes its vertical and then its horizontal centre line, in order |
| Canvas.CentresStep | canvasManager.js:349-351 | one more object appends its two centre targets |
| Canvas.SnapTargets | canvasManager.js:328-352 | the six page targets (centres and edges), followed by the two centre targets of every other object, in scene order |
| Canvas.CanvasManager.constructor | canvasManager.js:9-66 | snap threshold 10, space not held, no selection shown, the grid layer holding exactly the lines of `IsPageGrid`, and the stage fitted to the container |
| Canvas.CanvasManager.StartSelection | canvasManager.js:138-145 | the selection starts at the pointer with zero size and is shown; nothing else changes |
| Canvas.CanvasManager.UpdateSelection | canvasManager.js:146-157 | while shown, the rectangle spans the start point and the pointer; hidden, nothing changes |
| Canvas.CanvasManager.EndSelection | canvasManager.js:158-165 | the selection rectangle is hidden |
| Canvas.CanvasManager.FitStage | canvasManager.js:184-195 | in place, the stage size, scale and position become those of `FitStageIntoParent` |
| Canvas.CanvasManager.Wheel | canvasManager.js:102-122 | in place, the view becomes `WheelZoom` of the old view; the scale stays positive |
| ImageWrappers.NearestWrapper | src/canvasManager.js:49-52 | the wrapper of the first node on the chain that has one |
| ImageWrappers.NearestWrapperIsFirst | src/canvasManager.js:49-52 | the result is null exactly when no node on the chain has a wrapper; otherwise it belongs to a node with no wrapper before it |
| ImageWrappers.FindImageWrapperForKonva | src/canvasManager.js:47-53 | null for no shape; otherwise the walk up the parents stops at the first node with a wrapper and returns it, or null at the root |
| ImageWrappers.Sign | src/canvasManager.js:35 | `Math.sign`: -1, 0 or 1, with the sign of its argument |
| ImageWrappers.WheelScale | src/canvasManager.js:35-38 | wheel up grows the scale by 5 % (1 % with Shift), wheel down shrinks it by as much, and the result is never below 0.05 |
| ImageWrappers.WheelScaleIsMonotonic | src/canvasManager.js:38 | a larger current scale never gives a smaller new scale |
| ImageWrappers.OnWheel | src/canvasManager.js:27-42 | handled exactly when there is a pointer, a shape under it and a wrapper above that; the wrapper's group and the wrapper itself then both get the new scale, and the group keeps its parent and wrapper links; otherwise nothing may change |

## Left out

- Rendering, layers, drawing calls, the transformer and all DOM wiring (buttons, keyboard listeners, drag and drop, sidebar): they display state and compute nothing.
- The content of a snapshot and the rebuild of the stage from it (`Konva.Node.create`, re-wiring children) in app.js and script.js: snapshots are opaque strings, and restore returns the snapshot it would load.
- script.js's undo and redo re-running `setupUI`, which adds its event listeners again: this is DOM wiring.
- Uploads, file reading, image loading (promises and `onload`), exports, preview and print: these are I/O.
- The remainder of `_snapNode` after the target list (canvasManager.js from line 354): only the target list is modelled.
- `_endSelection`'s hit test with `Konva.Util.haveIntersection`: it is a library call; the model only hides the rectangle.
- `_uiStatus`, `toggleGrid`, the underline button and `ensureGoogleFontLoaded`'s stylesheet injection and `encodeURIComponent` URL: they display or load and compute nothing beyond the id.
- Canvas.WheelZoom: requires a positive stage scale; the source's division by a zero scale (JavaScript Infinity) is not modelled.
- Canvas.FitStageIntoParent: requires non-negative container sizes, which the DOM guarantees.
- Canvas.ImageRatio: an image of width or height 0 makes the source divide by zero (JavaScript Infinity), which never wins `Math.min`; the model drops that term instead.
- ScriptEditor.ApplySnapping: returns the new node position instead of setting it on the node; the client rectangle is a parameter.
- AppHistory.HistoryPanel: performs the corrected page, whose restore refreshes the buttons; the page as written, whose buttons go stale after undo or redo, exists only as the value functions OnRestoreAsWritten, OnUndoAsWritten and OnRedoAsWritten.
- ImageWrappers.OnWheel: the parent chain of the shape is a ghost parameter, and `preventDefault` is not modelled beyond the returned flag.
- `deltaY` and all coordinates are exact reals: floating-point rounding, NaN and infinities of JavaScript numbers are not modelled.

## Findings

| source | as written | input that shows it | evidently intended | confidence | as-written member | corrected member |
|---|---|---|---|---|---|---|
| app.js:20-56 | `restoreFromHistory`, which undo and redo call, never calls `updateUndoRedoButtons`, so the buttons keep the state of the last push | push "a", push "b", click Undo: the redo button stays disabled although redo is possible, and clicking it does nothing | undo and redo refresh both buttons from the new cursor | not executed | AppHistory.RedoButtonStaysDisabledAfterUndo | AppHistory.PressRedoAfterPressUndo |
