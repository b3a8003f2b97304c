# EditManager: the photo editor's coordinator, in Dafny

This project models `EditManager`, the object behind the photo editor of the web client
(`web/src/lib/managers/edit/edit-manager.svelte.ts`). The coordinator does the following:

- it owns a fixed, ordered list of editing tools: Transform (crop and rotate) first, then Filter;
- it remembers the asset under edit and the selected tool;
- it derives `hasChanges` from the tools' managers;
- it asks the user before unsaved edits are discarded, and lets only one such dialog be open at a time;
- it submits the tools' combined edit list to the server. It arms the "edit ready" websocket
  listener before it sends the request.

`edit_manager.dfy` (module `Edit`) holds the data model and the class `Edit.EditManager`.
The class has the source's fields and one method per method of the source. Each method
states its whole new state. Everything the coordinator calls is outside the model: the
tool managers' hooks, the discard dialog, the toasts, the two SDK requests and the
websocket wait. Each call to them is appended, as an `Event`, to the ghost field `trace`,
and their answers are parameters:

- the user's answer to the dialog is `confirmed`;
- the request's success is `requestOk`;
- the completion event's arrival within 10 000 ms is `completionOk`.

The pure parts have their own functions, and the lemmas about them are proved there:

- the `some` behind `hasChanges` is `AnyHasChanges`;
- the `find` of `activateTool` is `FindTool`;
- the `flatMap` of `applyEdits` is `CombinedEdits`;
- the choice of request is `EditRequest`;
- the calls that `applyEdits` makes, in order, are `SubmitEvents`.

`scenarios.dfy` holds client methods. They show what a caller can conclude from the
contracts alone, for example that `init` followed by `cleanup` deactivates Transform and
then Filter and ends the session.

Two behaviours of the code are modelled as written:

- If `applyEdits` runs with no asset, the listener is still armed. Reading the missing
  asset's id then throws inside the `try` block, so no request is sent, the failure toast
  is shown and the result is `false`. `ApplyEdits` has no precondition that excludes this case.
- No method of the class ever clears `hasAppliedEdits`. After one successful submit,
  `closeConfirm` returns true without a dialog in every later session of the same
  coordinator. The only exception is code outside the class that clears the public field.
  The scenario `AppliedFlagOutlivesSession` shows this.

## Model

| member | source | states |
|---|---|---|
| `Edit.AnyHasChanges` | web/src/lib/managers/edit/edit-manager.svelte.ts:52 | `hasChanges` is true exactly when some tool's manager reports changes |
| `Edit.FindTool` | web/src/lib/managers/edit/edit-manager.svelte.ts:98 | returns the index of the first tool of the kind, with no earlier tool of that kind; returns nothing exactly when no tool has the kind |
| `Edit.DeclaredToolsFound` | web/src/lib/managers/edit/edit-manager.svelte.ts:35-48 | on the declared list, Transform is found at position 0 and Filter at position 1 |
| `Edit.CombinedEdits` | web/src/lib/managers/edit/edit-manager.svelte.ts:121 | the `flatMap` over the tools' edit lists; it is characterized by the `CombinedEdits*` lemmas (append, empty, membership, declared order) |
| `Edit.EditManager.HasChanges` | web/src/lib/managers/edit/edit-manager.svelte.ts:52 | the derived `hasChanges` is `AnyHasChanges` over `tools`: true exactly when some tool's manager reports changes |
| `Edit.HookEvents` | web/src/lib/managers/edit/edit-manager.svelte.ts:82-84 | the hook calls of the `for` loops at lines 82-84, 91-93, 105-107 and 113-115; it is characterized by the `HookEvents*` lemmas and `DeclaredHookOrder` |
| `Edit.CombinedEditsAppend` | web/src/lib/managers/edit/edit-manager.svelte.ts:121 | combining the edits of two lists of tools, one after the other, is the concatenation of the two combinations |
| `Edit.CombinedEditsEmpty` | web/src/lib/managers/edit/edit-manager.svelte.ts:121 | the combined list is empty exactly when every tool's edit list is empty |
| `Edit.CombinedEditsMember` | web/src/lib/managers/edit/edit-manager.svelte.ts:121 | an action is in the combined list exactly when it is in some tool's list |
| `Edit.DeclaredCombinedEdits` | web/src/lib/managers/edit/edit-manager.svelte.ts:121 | on the declared list, the combined list is Transform's edits followed by Filter's |
| `Edit.HookEventsAppend` | web/src/lib/managers/edit/edit-manager.svelte.ts:82-84 | running a hook over two lists of tools, one after the other, calls the hooks of the first list and then those of the second |
| `Edit.HookEventsAt` | web/src/lib/managers/edit/edit-manager.svelte.ts:91-93 | a hook loop calls the hook exactly once per tool, and the i-th call is on the i-th tool |
| `Edit.DeclaredHookOrder` | web/src/lib/managers/edit/edit-manager.svelte.ts:105-107 | on the declared list, a hook loop calls Transform's hook and then Filter's, and nothing else |
| `Edit.EditRequest` | web/src/lib/managers/edit/edit-manager.svelte.ts:131-138 | the request is for the given asset id; it is "remove all edits" exactly when the list is empty, and otherwise "apply edits" with the whole list |
| `Edit.SubmitEvents` | web/src/lib/managers/edit/edit-manager.svelte.ts:123-150 | the listener ("AssetEditReadyV1", 10 000 ms) is armed first. At most one request is sent, right after it, and only when there is an asset. The completion is awaited exactly when the request was sent and succeeded. Exactly one toast is shown, last: success exactly when asset, request and completion all succeed |
| `Edit.EditManager.constructor` | web/src/lib/managers/edit/edit-manager.svelte.ts:35-57 | the tools are Transform then Filter over the given managers; no asset and no selected tool; all three flags are false; no calls yet |
| `Edit.EditManager.UpdateTool` | web/src/lib/managers/edit/edit-manager.svelte.ts:14-20 | only the manager state of the tool of the given kind changes (`hasChanges`, `edits`); no field of the coordinator changes and no call is made |
| `Edit.EditManager.RunHooks` | web/src/lib/managers/edit/edit-manager.svelte.ts:113-115 | the loop appends one hook call per tool, in tool order, and changes nothing else |
| `Edit.EditManager.CloseConfirm` | web/src/lib/managers/edit/edit-manager.svelte.ts:59-79 | if a dialog is already open, returns false and shows none. Otherwise, with no changes or with edits already applied, returns true and shows none. Otherwise shows exactly one dialog with the fixed texts and returns the user's answer. The dialog flag has its entry value on return, and no other field changes |
| `Edit.EditManager.Reset` | web/src/lib/managers/edit/edit-manager.svelte.ts:81-86 | deactivates Transform then Filter, selects the first tool, and keeps the asset and the flags |
| `Edit.EditManager.Init` | web/src/lib/managers/edit/edit-manager.svelte.ts:88-95 | sets the asset, activates Transform then Filter with the asset and its saved edits, and selects the first tool; the flags do not change |
| `Edit.EditManager.ActivateTool` | web/src/lib/managers/edit/edit-manager.svelte.ts:97-102 | selects the first tool of the kind when there is one and otherwise keeps the selection. On the declared list the selected tool always has the kind. Nothing else changes and no call is made |
| `Edit.EditManager.Cleanup` | web/src/lib/managers/edit/edit-manager.svelte.ts:104-110 | deactivates Transform then Filter, then clears the asset and the selected tool; the flags do not change |
| `Edit.EditManager.ResetAllChanges` | web/src/lib/managers/edit/edit-manager.svelte.ts:112-116 | calls `resetAllChanges` on Transform then Filter, and changes no field of the coordinator |
| `Edit.EditManager.ApplyEdits` | web/src/lib/managers/edit/edit-manager.svelte.ts:118-151 | returns true exactly when there is an asset and the request and the completion wait both succeed. `hasAppliedEdits` is set on success and unchanged otherwise. `isApplyingEdits` is false on every exit, and no other field changes. The calls made are those of `SubmitEvents` for Transform's edits followed by Filter's |

## Left out

- Svelte reactivity (`$state`, `$derived`): the state is plain fields, and `hasChanges` is the function `HasChanges` over the current tools.
- Tool manager internals: the transform and filter managers are not part of this model. The coordinator only reads `hasChanges` and `edits`. Whatever a manager does to its own state, on a hook or on user input, is the separate step `UpdateTool`. The hooks themselves only record a `HookCalled` event.
- CloseConfirm: the dialog is assumed always to resolve with an answer. The source has no `try`/`finally` around the dialog, so a rejected dialog would leave `isShowingConfirmDialog` set, and every later `closeConfirm` would return false; the model does not capture that path.
- Errors thrown by a tool's hook are not modelled. They propagate out of `init`, `reset`, `cleanup` and `resetAllChanges` unhandled, and can leave a loop part-way.
- The optional-call form `onActivate?.()` and `onDeactivate?.()` is modelled as a call. The tool-manager interface declares both hooks as required.
- Asynchrony and re-entrancy: each method runs to completion. `CloseConfirm` therefore cannot show the window in which the flag is true while the dialog is open. Only the flag's value on entry is modelled. The same applies to a second `applyEdits` running concurrently, which the source does not guard against.
- The websocket wait: its asset-id filter and its 10 000 ms timeout are folded into `completionOk`. A timeout is one way for the wait to fail. The event name and the timeout are recorded in `ListenerArmed`.
- The dialog, the toasts and the SDK requests are UI and network code. They are recorded as `ConfirmShown`, `Toast` and `Requested` events. Their answers are the parameters `confirmed` and `requestOk`.
- `init` receives the saved edit list itself rather than the `AssetEditsDto` wrapper around it. The asset is reduced to its `id`.
- `selectedTool` holds the index of the selected tool in `tools`, not a reference to the tool record.
- Tool icons and view components are UI assets and are not modelled.
