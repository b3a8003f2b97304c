/** Client scenarios: what a caller of EditManager can conclude from the contracts alone. */
module EditScenarios {
  import opened Edit

  /** Selecting a tool by kind, and `init` followed at once by `cleanup`. */
  method SessionLifecycle(a: Asset, saved: seq<string>)
  {
    var m := new EditManager<string>(ToolManager(false, []), ToolManager(false, []));
    m.Init(a, saved);
    assert m.currentAsset == Some(a) && m.selectedTool == Some(0);
    m.ActivateTool(Filter);
    assert m.selectedTool == Some(1);
    m.Cleanup();
    assert m.currentAsset == None && m.selectedTool == None;
    assert m.trace == [HookCalled(Transform, OnActivate(a, saved)), HookCalled(Filter, OnActivate(a, saved)),
                       HookCalled(Transform, OnDeactivate), HookCalled(Filter, OnDeactivate)];
  }

  /** With no pending changes the editor may close, and no dialog is shown. */
  method CloseWithoutChanges(answer: bool)
  {
    var m := new EditManager<string>(ToolManager(false, []), ToolManager(false, []));
    var ok := m.CloseConfirm(answer);
    assert ok && m.trace == [];
  }

  /** With pending changes the user's answer decides, and the flag is clear afterwards. */
  method CloseWithChanges(answer: bool)
  {
    var m := new EditManager<string>(ToolManager(true, ["crop"]), ToolManager(false, []));
    var ok := m.CloseConfirm(answer);
    assert ok == answer && !m.isShowingConfirmDialog;
    assert m.trace == [ConfirmShown(DiscardTitle, DiscardPrompt, DiscardConfirmText)];
  }

  /** No edits at all: the "remove all edits" request is sent. */
  method ApplyNothing()
  {
    var m := new EditManager<string>(ToolManager(false, []), ToolManager(false, []));
    m.Init(Asset("A1"), []);
    var ok := m.ApplyEdits(true, true);
    assert ok && m.hasAppliedEdits && !m.isApplyingEdits;
    // two activations, then the listener, then the request
    assert m.trace[2] == ListenerArmed(EditReadyEvent, EditReadyTimeoutMs);
    assert m.trace[3] == Requested(RemoveAssetEdits("A1"));
  }

  /** One crop edit on asset A1, and the completion event arrives in time. */
  method ApplyCrop()
  {
    var m := new EditManager<string>(ToolManager(false, []), ToolManager(false, []));
    m.Init(Asset("A1"), []);
    m.UpdateTool(Transform, ToolManager(true, ["crop"]));
    var ok := m.ApplyEdits(true, true);
    assert ok && m.hasAppliedEdits && !m.isApplyingEdits;
    assert m.trace[3] == Requested(EditAsset("A1", ["crop"]));
    assert m.trace[|m.trace| - 1] == Toast(Success, AppliedMessage);
  }

  /** The same, but the completion event never arrives before the timeout. */
  method ApplyCropTimesOut()
  {
    var m := new EditManager<string>(ToolManager(false, []), ToolManager(false, []));
    m.Init(Asset("A1"), []);
    m.UpdateTool(Transform, ToolManager(true, ["crop"]));
    var ok := m.ApplyEdits(true, false);
    assert !ok && !m.hasAppliedEdits && !m.isApplyingEdits;
    assert m.trace[|m.trace| - 1] == Toast(Danger, FailedMessage);
  }

  /** Without a session, `applyEdits` fails before any request is sent. */
  method ApplyWithoutSession(requestOk: bool, completionOk: bool)
  {
    var m := new EditManager<string>(ToolManager(true, ["crop"]), ToolManager(false, []));
    var ok := m.ApplyEdits(requestOk, completionOk);
    assert !ok && !m.hasAppliedEdits && !m.isApplyingEdits;
    assert forall i :: 0 <= i < |m.trace| ==> !m.trace[i].Requested?;
  }

  /** Nothing in the class clears `hasAppliedEdits`: after one successful apply, a later
      session on another asset closes without asking, even with pending changes. */
  method AppliedFlagOutlivesSession(answer: bool)
  {
    var m := new EditManager<string>(ToolManager(true, ["crop"]), ToolManager(false, []));
    m.Init(Asset("A1"), []);
    var ok := m.ApplyEdits(true, true);
    m.Cleanup();
    m.Init(Asset("A2"), []);
    m.UpdateTool(Filter, ToolManager(true, ["sepia"]));
    var mayClose := m.CloseConfirm(answer);
    assert mayClose;
  }
}
