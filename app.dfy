/**
 * The top-level state of `App.tsx` that concerns tools: the theme, the
 * tool-click routing through sign-in, the editor's tool and file, and the
 * lock shown on each tool card.
 */
module App {
  import opened Wrappers
  import opened Strings
  import ToolUtils

  datatype Theme = Light | Dark

  /** Dark between 19:00 and 07:00, or whenever the system prefers dark. */
  function InitialTheme(hours: int, systemPrefersDark: bool): (t: Theme)
    requires 0 <= hours < 24
    ensures t == Light <==> 7 <= hours < 19 && !systemPrefersDark
  {
    var isNightTime := hours >= 19 || hours < 7;
    if isNightTime || systemPrefersDark then Dark else Light
  }

  function Toggled(t: Theme): (r: Theme)
    ensures r != t
  {
    if t == Light then Dark else Light
  }

  /** Toggling twice restores the theme. */
  lemma ToggleTwice(t: Theme)
    ensures Toggled(Toggled(t)) == t
  {
  }

  /**
   * The plan recorded for a signed-in user: the profile's `plan_type`, or
   * `"free"` when it is missing or empty.
   */
  function ProfilePlan(planType: Option<string>): (plan: string)
    ensures plan != ""
    ensures planType.Some? && planType.value != "" ==> plan == planType.value
    ensures planType.None? || planType.value == "" ==> plan == "free"
  {
    if planType.Some? && planType.value != "" then planType.value else "free"
  }

  datatype User = User(id: string, plan: string)

  /**
   * `!!badge && badge !== 'free' && user?.plan === 'free'`: the card is
   * locked for a free user when the badge is a non-empty string other than
   * `'free'`.
   */
  predicate IsLocked(badge: Option<string>, user: Option<User>): (locked: bool)
    ensures badge.None? || user.None? ==> !locked
    ensures locked ==> user.value.plan == "free" && badge.value !in {"", "free"}
  {
    badge.Some? && badge.value != "" && badge.value != "free" && user.Some? && user.value.plan == "free"
  }

  /**
   * The lock of a tool card. Since a badge is only ever `"PRO"` or
   * `"ENTERPRISE"`, the `!== 'free'` test never decides anything.
   */
  function CardLocked(toolName: string, user: Option<User>): (locked: bool)
    ensures locked <==> ToolUtils.GetToolBadge(toolName).Some? && user.Some? && user.value.plan == "free"
  {
    IsLocked(ToolUtils.GetToolBadge(toolName), user)
  }

  /**
   * The sample file name of a tool: `Sample_`, the name with each whitespace
   * run replaced by `_` (case kept), and `.pdf`.
   */
  function SampleFileName(toolName: string): (name: string)
    ensures |name| >= 11 && name[..7] == "Sample_" && name[|name| - 4..] == ".pdf"
    ensures NoSpace(name[7..|name| - 4]) && |name| - 11 <= |toolName|
    ensures NoSpace(toolName) ==> name == "Sample_" + toolName + ".pdf"
    ensures name == "Sample_" + ReplaceSpaceRuns(toolName) + ".pdf"
  {
    ReplaceSpaceRunsChars(toolName);
    var middle := ReplaceSpaceRuns(toolName);
    var name := "Sample_" + middle + ".pdf";
    assert name[7..|name| - 4] == middle;
    if NoSpace(toolName) then
      ReplaceSpaceRunsFixedPoint(toolName);
      name
    else
      name
  }

  /** A two-word name keeps its case and gets one `_` for its space. */
  lemma SampleOfMergePdf()
    ensures SampleFileName("Merge PDF") == "Sample_Merge_PDF.pdf"
  {
    assert "Merge PDF" == "Merge" + (" " + "PDF");
    MergePdfRewritten();
    assert "Sample_" + ("Merge" + ("_" + "PDF")) + ".pdf" == "Sample_Merge_PDF.pdf";
  }

  lemma MergePdfRewritten()
    ensures ReplaceSpaceRuns("Merge" + (" " + "PDF")) == "Merge" + ("_" + "PDF")
  {
    ReplaceWordAndRun("Merge", " ", "PDF");
    ReplaceSpaceRunsFixedPoint("PDF");
  }

  class AppState {
    var user: Option<User>
    var activeEditorFile: Option<string>
    var activeTool: Option<string>
    var isAuthModalOpen: bool
    var theme: Theme
    var pendingTool: Option<string>

    constructor ()
      ensures user == None && activeEditorFile == None && activeTool == None
      ensures !isAuthModalOpen && theme == Light && pendingTool == None
    {
      user := None;
      activeEditorFile := None;
      activeTool := None;
      isAuthModalOpen := false;
      theme := Light;
      pendingTool := None;
    }

    /** `activeEditorFile && activeTool`: both set and non-empty. */
    predicate EditorShown()
      reads this
    {
      activeEditorFile.Some? && activeEditorFile.value != "" && activeTool.Some? && activeTool.value != ""
    }

    /** The mount effect choosing the theme from the hour and the system preference. */
    method ApplyInitialTheme(hours: int, systemPrefersDark: bool)
      requires 0 <= hours < 24
      modifies this`theme
      ensures theme == InitialTheme(hours, systemPrefersDark)
    {
      theme := InitialTheme(hours, systemPrefersDark);
    }

    /** `setUser` after the profile read, with the `'free'` default. */
    method SignIn(id: string, planType: Option<string>)
      modifies this`user
      ensures user == Some(User(id, ProfilePlan(planType)))
    {
      user := Some(User(id, ProfilePlan(planType)));
    }

    method ToggleTheme()
      modifies this`theme
      ensures theme == Toggled(old(theme)) && theme != old(theme)
    {
      theme := Toggled(theme);
    }

    /**
     * Without a user the tool is parked and the sign-in dialog opens; with
     * one, the editor opens on the tool and its sample file.
     */
    method HandleToolClick(toolName: string)
      modifies this`pendingTool, this`isAuthModalOpen, this`activeTool, this`activeEditorFile
      ensures old(user).None? ==>
        pendingTool == Some(toolName) && isAuthModalOpen &&
        activeTool == old(activeTool) && activeEditorFile == old(activeEditorFile)
      ensures old(user).Some? ==>
        activeTool == Some(toolName) && activeEditorFile == Some(SampleFileName(toolName)) &&
        pendingTool == old(pendingTool) && isAuthModalOpen == old(isAuthModalOpen)
      ensures old(user).Some? && toolName != "" ==> EditorShown()
    {
      if user.None? {
        pendingTool := Some(toolName);
        isAuthModalOpen := true;
        return;
      }
      activeTool := Some(toolName);
      activeEditorFile := Some(SampleFileName(toolName));
    }

    method CloseEditor()
      modifies this`activeEditorFile, this`activeTool
      ensures activeEditorFile == None && activeTool == None && !EditorShown()
    {
      activeEditorFile := None;
      activeTool := None;
    }
  }
}
