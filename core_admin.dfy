/**
 * The core admin (`backend/apps/core/admin.py`): the truncated preview
 * columns, the workflow-execution duration column and the read-only
 * system log.
 */
module CoreAdmin {
  import opened Wrappers
  import opened Text
  import opened CoreModels

  /** `NoteAdmin.content_preview`: the content, cut to fifty characters and an ellipsis when longer. */
  function ContentPreview(n: Note): (r: string)
    ensures |n.content| <= 50 ==> r == n.content
    ensures |n.content| > 50 ==> r == n.content[..50] + "..."
    ensures |r| <= 53
  {
    Preview(n.content, 50)
  }

  /**
   * `SettingAdmin.value_preview` on the setting's value already rendered
   * by `str()`; the rendering of a JSON value is not modelled.
   */
  function ValuePreview(valueText: string): (r: string)
    ensures |valueText| <= 50 ==> r == valueText
    ensures |valueText| > 50 ==> r == valueText[..50] + "..."
    ensures |r| <= 53
  {
    Preview(valueText, 50)
  }

  /** `SystemLogAdmin.message_preview`: the same rule at a hundred characters. */
  function MessagePreview(l: SystemLog): (r: string)
    ensures |l.message| <= 100 ==> r == l.message
    ensures |l.message| > 100 ==> r == l.message[..100] + "..."
    ensures |r| <= 103
  {
    Preview(l.message, 100)
  }

  /**
   * `WorkflowExecutionAdmin.duration`, timestamps in whole seconds: the
   * elapsed seconds with two decimals, or "N/A" when either stamp is
   * missing.
   */
  function Duration(startedAt: Option<int>, completedAt: Option<int>): (r: string)
  {
    if startedAt.Some? && completedAt.Some? then IntToString(completedAt.value - startedAt.value) + ".00s"
    else "N/A"
  }

  /**
   * The column is "N/A" exactly when a stamp is missing; otherwise the
   * elapsed seconds read back from the text before ".00s".
   */
  lemma DurationShape(startedAt: Option<int>, completedAt: Option<int>)
    ensures Duration(startedAt, completedAt) == "N/A" <==> startedAt.None? || completedAt.None?
    ensures startedAt.Some? && completedAt.Some? ==>
      var r := Duration(startedAt, completedAt);
      |r| >= 4 && r[|r| - 4..] == ".00s"
      && ParseInt(r[..|r| - 4]) == Some(completedAt.value - startedAt.value)
  {
    if startedAt.Some? && completedAt.Some? {
      var d := completedAt.value - startedAt.value;
      var r := Duration(startedAt, completedAt);
      assert r[|r| - 1] == 's';
      assert r[..|r| - 4] == IntToString(d);
      ParseIntOfIntToString(d);
    }
  }

  /** What the admin site lets a staff user do with a model's records. */
  datatype AdminPermissions = AdminPermissions(add: bool, change: bool, delete: bool, view: bool)

  /**
   * `SystemLogAdmin`: adding and changing are refused whatever the
   * defaults say; deleting and viewing follow the defaults.
   */
  function SystemLogAdminPermissions(defaults: AdminPermissions): (r: AdminPermissions)
    ensures !r.add && !r.change
    ensures r.delete == defaults.delete && r.view == defaults.view
  {
    defaults.(add := false, change := false)
  }
}
