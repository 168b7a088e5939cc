/**
 * The two editors' history pushes side by side: app.js skips a snapshot equal
 * to the current one, script.js (`saveHistory`) always records a new step.
 */
module HistoryVariants {
  import opened Timelines
  import AppHistory
  import ScriptEditor

  /** On a snapshot that differs from the current one, both pushes give the same history. */
  lemma SameUnlessDuplicate(t: Timeline, json: Snapshot)
    requires Valid(t) && !AppHistory.IsDuplicate(t, json)
    ensures ScriptEditor.Save(t, json) == AppHistory.PushSnapshot(t, json)
  {
  }

  /** On a repeated snapshot they differ: app.js keeps its cursor, script.js advances it. */
  lemma DifferOnDuplicate(t: Timeline, json: Snapshot)
    requires Valid(t) && AppHistory.IsDuplicate(t, json)
    ensures AppHistory.PushSnapshot(t, json) == t
    ensures ScriptEditor.Save(t, json).cursor == t.cursor + 1
  {
  }
}
